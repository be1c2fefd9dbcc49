/** Lists, and lists of key-value pairs in which a key may repeat. */
module Lists {
  lemma Associative<T>(a: seq<T>, b: seq<T>, c: seq<T>)
    ensures a + (b + c) == a + b + c
  {
  }

  /** The first element of one list moves to the end of another. */
  lemma Shift<T>(a: seq<T>, b: seq<T>)
    requires b != []
    ensures a + b == a + [b[0]] + b[1..]
  {
  }

  /** The values that a list of pairs gives to one key, in order. */
  function Project<K(==), V>(pairs: seq<(K, V)>, k: K): seq<V> {
    if pairs == [] then []
    else Project(pairs[..|pairs| - 1], k) + (if pairs[|pairs| - 1].0 == k then [pairs[|pairs| - 1].1] else [])
  }

  lemma ProjectAppend<K, V>(pairs: seq<(K, V)>, p: (K, V), k: K)
    ensures Project(pairs + [p], k) == Project(pairs, k) + (if p.0 == k then [p.1] else [])
  {
    assert (pairs + [p])[..|pairs|] == pairs;
  }

  /** One key with each of several values, in order. */
  function PairsOf<K, V>(k: K, values: seq<V>): (pairs: seq<(K, V)>)
    ensures |pairs| == |values|
    ensures forall i | 0 <= i < |values| :: pairs[i] == (k, values[i])
  {
    seq(|values|, i requires 0 <= i < |values| => (k, values[i]))
  }

  lemma PairsOfAppend<K, V>(k: K, values: seq<V>, v: V)
    ensures PairsOf(k, values + [v]) == PairsOf(k, values) + [(k, v)]
  {
  }

  lemma {:induction false} ProjectPairsOf<K, V>(k: K, values: seq<V>, j: K)
    ensures Project(PairsOf(k, values), j) == if j == k then values else []
  {
    if values != [] {
      var front, last := values[..|values| - 1], values[|values| - 1];
      ProjectPairsOf(k, front, j);
      assert values == front + [last];
      PairsOfAppend(k, front, last);
      ProjectAppend(PairsOf(k, front), (k, last), j);
    }
  }

  lemma {:induction false} ProjectConcat<K, V>(a: seq<(K, V)>, b: seq<(K, V)>, k: K)
    ensures Project(a + b, k) == Project(a, k) + Project(b, k)
  {
    if b == [] {
      assert a + b == a;
    } else {
      var c := b[..|b| - 1];
      ProjectConcat(a, c, k);
      assert (a + b)[..|a + b| - 1] == a + c;
    }
  }

  lemma {:induction false} CountProject<K, V>(pairs: seq<(K, V)>, k: K, v: V)
    ensures multiset(pairs)[(k, v)] == multiset(Project(pairs, k))[v]
  {
    if pairs != [] {
      var front := pairs[..|pairs| - 1];
      CountProject(front, k, v);
      assert pairs == front + [pairs[|pairs| - 1]];
    }
  }

  /** Lists that agree on the values of every key are the same multiset of pairs. */
  lemma SameProjections<K(!new), V(!new)>(a: seq<(K, V)>, b: seq<(K, V)>)
    requires forall k :: Project(a, k) == Project(b, k)
    ensures multiset(a) == multiset(b) && |a| == |b|
  {
    forall p: (K, V)
      ensures multiset(a)[p] == multiset(b)[p]
    {
      CountProject(a, p.0, p.1);
      CountProject(b, p.0, p.1);
    }
    assert multiset(a) == multiset(b);
    assert |multiset(a)| == |a| && |multiset(b)| == |b|;
  }
}
