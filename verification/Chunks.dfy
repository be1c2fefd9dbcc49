/** Byte strings, and byte strings cut into chunks. */
module Chunks {
  import opened Lists

  type Bytes = seq<bv8>

  /** The bytes of a list of chunks, in order. */
  function Flat(chunks: seq<Bytes>): Bytes {
    if chunks == [] then [] else chunks[0] + Flat(chunks[1..])
  }

  lemma {:induction false} FlatAppend(a: seq<Bytes>, b: seq<Bytes>)
    ensures Flat(a + b) == Flat(a) + Flat(b)
  {
    if a == [] {
      assert a + b == b;
    } else {
      FlatAppend(a[1..], b);
      assert (a + b)[1..] == a[1..] + b;
      Associative(a[0], Flat(a[1..]), Flat(b));
    }
  }

  lemma FlatOne(chunk: Bytes)
    ensures Flat([chunk]) == chunk
  {
    assert [chunk][1..] == [];
  }

  /** Fewer chunks make a prefix of the bytes. */
  lemma FlatPrefix(a: seq<Bytes>, b: seq<Bytes>)
    requires a <= b
    ensures Flat(a) <= Flat(b)
  {
    FlatAppend(a, b[|a|..]);
    assert b == a + b[|a|..];
  }

  function Min(a: nat, b: nat): nat {
    if a <= b then a else b
  }

  function Max(a: nat, b: nat): (m: nat)
    ensures m >= a && m >= b && (m == a || m == b)
  {
    if a <= b then b else a
  }
}
