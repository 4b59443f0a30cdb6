/** Bytes and UTF-16 code units, which the two formats share. */
module Octets {

  type Byte = b: nat | b < 256

  /** A UTF-16 code unit. */
  type Unit = u: nat | u < 65536

  type Bytes = seq<Byte>

  type Text = seq<Unit>

  function Zeros(n: nat): (r: Bytes)
    ensures |r| == n && forall i | 0 <= i < n :: r[i] == 0
  {
    seq(n, _ => 0)
  }
}
