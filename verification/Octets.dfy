/** Bytes and byte strings, shared by the modules about wire formats. */
module Octets {

  newtype byte = x: int | 0 <= x < 256

  type Bytes = seq<byte>

  /** The first `b` at or after `from`, or -1. */
  function Find(data: Bytes, b: byte, from: nat): (r: int)
    ensures r == -1 || (from <= r < |data| && data[r] == b)
    ensures forall i :: from <= i < |data| && (r == -1 || i < r) ==> data[i] != b
    decreases |data| - from
  {
    if from >= |data| then -1 else if data[from] == b then from else Find(data, b, from + 1)
  }

  lemma FindAt(data: Bytes, b: byte, from: nat, where: nat)
    requires from <= where < |data| && data[where] == b
    requires forall i :: from <= i < where ==> data[i] != b
    ensures Find(data, b, from) == where
  {
  }

  function Joined(pieces: seq<Bytes>): (data: Bytes) {
    if pieces == [] then [] else Joined(pieces[..|pieces| - 1]) + pieces[|pieces| - 1]
  }
}
