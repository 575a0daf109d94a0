/** Per-universe sequence-number bookkeeping: the 8-bit Sequence Number of the
    E1.31 framing layer (section 6.2.6 of ANSI E1.31-2016), kept in a map from
    universe id to the number the next packet on that universe will carry. */
module Sequencing {
  import opened Types

  /** C# `byte` post-increment in an unchecked context: 255 wraps to 0. */
  function WrappingIncrement(b: uint8): (r: uint8)
    ensures r as int == (b as int + 1) % 256
    ensures b < 255 ==> r == b + 1
  {
    if b == 255 then 0 else b + 1
  }

  /** `Dictionary.TryGetValue` into a `byte`: the out value is the stored one,
      or `default(byte)` for an unseen universe. */
  function NextSequence(ids: map<uint16, uint8>, u: uint16): (b: uint8)
    ensures u in ids ==> b == ids[u]
    ensures u !in ids ==> b == 0
  {
    if u in ids then ids[u] else 0
  }

  /** The store `sequenceIds[u] = sequenceID` after the post-increment. */
  function Advance(ids: map<uint16, uint8>, u: uint16): (r: map<uint16, uint8>)
    ensures r.Keys == ids.Keys + {u}
    ensures r[u] as int == (NextSequence(ids, u) as int + 1) % 256
    ensures forall v :: v in ids && v != u ==> r[v] == ids[v]
  {
    ids[u := WrappingIncrement(NextSequence(ids, u))]
  }

  /** The numbers s, s+1, ..., s+n-1, each taken modulo 256. */
  function Counting(s: uint8, n: nat): (r: seq<uint8>)
  {
    seq(n, i requires 0 <= i < n => ((s as int + i) % 256) as uint8)
  }

  /** Counting from s is s followed by counting from its successor. */
  lemma CountingStep(s: uint8, n: nat)
    ensures Counting(s, n + 1) == [s] + Counting(WrappingIncrement(s), n)
  {
  }

  /** Within any run of at most 256 consecutive sends no number repeats. */
  lemma CountingDistinct(s: uint8, n: nat)
    requires n <= 256
    ensures forall i, j :: 0 <= i < j < n ==> Counting(s, n)[i] != Counting(s, n)[j]
  {
  }
}
