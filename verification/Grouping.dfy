/** Query pairs grouped into a dict that holds a value, or a list for a key that repeats. */
module Grouping {
  import opened Lists

  type Key = string
  type Val = string

  datatype Grouped = One(value: Val) | Many(values: seq<Val>)

  /** A dict in insertion order. */
  type Dict = seq<(Key, Grouped)>

  function ValuesOf(g: Grouped): seq<Val> {
    match g
    case One(v) => [v]
    case Many(vs) => vs
  }

  function Get(d: Dict, k: Key): seq<Val> {
    if d == [] then [] else if d[0].0 == k then ValuesOf(d[0].1) else Get(d[1..], k)
  }

  /** A second value turns the entry into a list, later ones are appended to it. */
  function Add(d: Dict, k: Key, v: Val): Dict {
    if d == [] then [(k, One(v))]
    else if d[0].0 == k then [(k, Many(ValuesOf(d[0].1) + [v]))] + d[1..]
    else [d[0]] + Add(d[1..], k, v)
  }

  function Group(pairs: seq<(Key, Val)>): Dict {
    if pairs == [] then []
    else
      var last := pairs[|pairs| - 1];
      Add(Group(pairs[..|pairs| - 1]), last.0, last.1)
  }

  /** The pairs of a dict, as extending a query with it writes them. */
  function Flatten(d: Dict): seq<(Key, Val)> {
    if d == [] then [] else PairsOf(d[0].0, ValuesOf(d[0].1)) + Flatten(d[1..])
  }

  /** Keys are distinct, and a list is only there for at least two values. */
  predicate Proper(d: Dict) {
    d == [] || ((d[0].1.Many? ==> |d[0].1.values| >= 2) && Get(d[1..], d[0].0) == [] && Proper(d[1..]))
  }

  lemma {:induction false} AddProper(d: Dict, k: Key, v: Val)
    requires Proper(d)
    ensures Proper(Add(d, k, v))
    ensures forall j :: Get(Add(d, k, v), j) == if j == k then Get(d, k) + [v] else Get(d, j)
  {
    if d != [] {
      AddProper(d[1..], k, v);
    }
  }

  /** Grouping keeps, for every key, exactly its values in their order. */
  lemma {:induction false} GroupKeeps(pairs: seq<(Key, Val)>)
    ensures Proper(Group(pairs))
    ensures forall k :: Get(Group(pairs), k) == Project(pairs, k)
  {
    if pairs != [] {
      var last := pairs[|pairs| - 1];
      GroupKeeps(pairs[..|pairs| - 1]);
      AddProper(Group(pairs[..|pairs| - 1]), last.0, last.1);
    }
  }

  /** Groups pair by pair. */
  method GroupPairs(pairs: seq<(Key, Val)>) returns (d: Dict)
    ensures d == Group(pairs)
  {
    d := [];
    for i := 0 to |pairs|
      invariant d == Group(pairs[..i])
    {
      assert Group(pairs[..i + 1]) == Add(d, pairs[i].0, pairs[i].1) by {
        GroupAppend(pairs[..i], pairs[i]);
        assert pairs[..i + 1] == pairs[..i] + [pairs[i]];
      }
      d := AddPair(d, pairs[i].0, pairs[i].1);
    }
    assert pairs[..|pairs|] == pairs;
  }

  method AddPair(d: Dict, k: Key, v: Val) returns (r: Dict)
    ensures r == Add(d, k, v)
  {
    var j := 0;
    while j < |d| && d[j].0 != k
      invariant j <= |d| && forall m | 0 <= m < j :: d[m].0 != k
    {
      j := j + 1;
    }
    AddAt(d, j, k, v);
    if j == |d| {
      return d + [(k, One(v))];
    }
    match d[j].1
    case One(existing) =>
      assert [existing] + [v] == [existing, v];
      r := d[j := (k, Many([existing, v]))];
    case Many(existing) =>
      r := d[j := (k, Many(existing + [v]))];
  }

  lemma {:induction false} AddAt(d: Dict, j: nat, k: Key, v: Val)
    requires j <= |d| && (forall m | 0 <= m < j :: d[m].0 != k) && (j < |d| ==> d[j].0 == k)
    ensures Add(d, k, v) == if j == |d| then d + [(k, One(v))] else d[j := (k, Many(ValuesOf(d[j].1) + [v]))]
  {
    if j > 0 {
      AddAt(d[1..], j - 1, k, v);
    }
  }

  /** Flattens entry by entry. */
  method FlattenEntries(d: Dict) returns (pairs: seq<(Key, Val)>)
    ensures pairs == Flatten(d)
  {
    pairs := [];
    for i := 0 to |d|
      invariant pairs + Flatten(d[i..]) == Flatten(d)
    {
      var run := SpreadValues(d[i].0, ValuesOf(d[i].1));
      Associative(pairs, run, Flatten(d[i + 1..]));
      assert d[i..][1..] == d[i + 1..];
      pairs := pairs + run;
    }
    assert d[|d|..] == [];
  }

  method SpreadValues(k: Key, values: seq<Val>) returns (run: seq<(Key, Val)>)
    ensures run == PairsOf(k, values)
  {
    run := [];
    for i := 0 to |values|
      invariant run == PairsOf(k, values[..i])
    {
      PairsOfAppend(k, values[..i], values[i]);
      assert values[..i + 1] == values[..i] + [values[i]];
      run := run + [(k, values[i])];
    }
    assert values[..|values|] == values;
  }

  // ----- Round trip -----

  lemma {:induction false} AddPastPrefix(a: Dict, b: Dict, k: Key, v: Val)
    requires forall p <- a :: p.0 != k
    ensures Add(a + b, k, v) == a + Add(b, k, v)
  {
    if a == [] {
      assert a + b == b;
      assert a + Add(b, k, v) == Add(b, k, v);
    } else {
      AddPastPrefix(a[1..], b, k, v);
      assert (a + b)[1..] == a[1..] + b;
    }
  }

  lemma GroupAppend(pairs: seq<(Key, Val)>, p: (Key, Val))
    ensures Group(pairs + [p]) == Add(Group(pairs), p.0, p.1)
  {
    assert (pairs + [p])[..|pairs|] == pairs;
  }

  /** The entry that a run of values of one key makes. */
  function Entry(values: seq<Val>): Grouped
    requires values != []
  {
    if |values| == 1 then One(values[0]) else Many(values)
  }

  lemma EntryValues(values: seq<Val>, v: Val)
    requires values != []
    ensures ValuesOf(Entry(values)) == values
    ensures forall k :: Add([(k, Entry(values))], k, v) == [(k, Entry(values + [v]))]
  {
  }

  /** Values of a new key group into one new entry at the end. */
  lemma {:induction false} GroupRun(pairs: seq<(Key, Val)>, k: Key, values: seq<Val>)
    requires values != [] && forall p <- Group(pairs) :: p.0 != k
    ensures Group(pairs + PairsOf(k, values)) == Group(pairs) + [(k, Entry(values))]
    decreases |values|
  {
    var n := |values| - 1;
    var front := values[..n];
    PairsOfAppend(k, front, values[n]);
    assert values == front + [values[n]];
    assert pairs + PairsOf(k, values) == (pairs + PairsOf(k, front)) + [(k, values[n])];
    GroupAppend(pairs + PairsOf(k, front), (k, values[n]));
    if front == [] {
      assert pairs + PairsOf(k, front) == pairs;
      AddPastPrefix(Group(pairs), [], k, values[n]);
      assert Group(pairs) + [] == Group(pairs);
    } else {
      GroupRun(pairs, k, front);
      EntryValues(front, values[n]);
      AddPastPrefix(Group(pairs), [(k, Entry(front))], k, values[n]);
    }
  }

  lemma {:induction false} KeyAbsent(d: Dict, k: Key)
    requires Proper(d) && Get(d, k) == []
    ensures forall p <- d :: p.0 != k
  {
    if d != [] {
      assert ValuesOf(d[0].1) != [];
      KeyAbsent(d[1..], k);
      assert forall p <- d :: p == d[0] || p in d[1..];
    }
  }

  lemma ProperHead(d: Dict)
    requires Proper(d) && d != []
    ensures ValuesOf(d[0].1) != [] && d[0] == (d[0].0, Entry(ValuesOf(d[0].1)))
    ensures forall p <- d[1..] :: p.0 != d[0].0
  {
    KeyAbsent(d[1..], d[0].0);
  }

  ghost predicate KeysApart(a: Dict, b: Dict) {
    forall p, q | p in a && q in b :: p.0 != q.0
  }

  lemma NextKeyApart(a: Dict, b: Dict)
    requires Proper(b) && b != [] && KeysApart(a, b)
    ensures KeysApart(a + [b[0]], b[1..])
    ensures forall p <- a :: p.0 != b[0].0
  {
    ProperHead(b);
    assert b[0] in b;
    assert forall q <- b[1..] :: q in b;
  }

  lemma {:induction false} GroupFlattenFrom(pairs: seq<(Key, Val)>, rest: Dict)
    requires Proper(rest) && KeysApart(Group(pairs), rest)
    ensures Group(pairs + Flatten(rest)) == Group(pairs) + rest
    decreases |rest|
  {
    if rest == [] {
      assert pairs + Flatten(rest) == pairs;
    } else {
      var head := PairsOf(rest[0].0, ValuesOf(rest[0].1));
      assert Group(pairs + head) == Group(pairs) + [rest[0]] by {
        ProperHead(rest);
        NextKeyApart(Group(pairs), rest);
        GroupRun(pairs, rest[0].0, ValuesOf(rest[0].1));
      }
      assert Group(pairs + head + Flatten(rest[1..])) == Group(pairs) + [rest[0]] + rest[1..] by {
        NextKeyApart(Group(pairs), rest);
        GroupFlattenFrom(pairs + head, rest[1..]);
      }
      Associative(pairs, head, Flatten(rest[1..]));
      Associative(Group(pairs), [rest[0]], rest[1..]);
      assert [rest[0]] + rest[1..] == rest;
    }
  }

  /** Flattening a grouped query and grouping it again gives the same dict, in the same order. */
  lemma GroupRoundTrip(pairs: seq<(Key, Val)>)
    ensures Group(Flatten(Group(pairs))) == Group(pairs)
  {
    GroupKeeps(pairs);
    GroupFlattenFrom([], Group(pairs));
    assert [] + Flatten(Group(pairs)) == Flatten(Group(pairs));
    assert [] + Group(pairs) == Group(pairs);
  }

  /** A grouped query still holds every pair equally often, and the values of each key in their order. */
  lemma GroupKeepsPairs(pairs: seq<(Key, Val)>)
    ensures forall k :: Project(Flatten(Group(pairs)), k) == Project(pairs, k)
    ensures multiset(Flatten(Group(pairs))) == multiset(pairs)
  {
    GroupRoundTrip(pairs);
    GroupKeeps(pairs);
    GroupKeeps(Flatten(Group(pairs)));
    SameProjections(Flatten(Group(pairs)), pairs);
  }
}
