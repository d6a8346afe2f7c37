/** Bytes and 64-bit counters. */
module Bytes {

  type Byte = b: nat | b < 256

  const U64_MAX: nat := 0xFFFF_FFFF_FFFF_FFFF

  function SaturatingAdd(a: nat, b: nat): nat {
    if a + b <= U64_MAX then a + b else U64_MAX
  }

  function SaturatingSub(a: nat, b: nat): nat {
    if b <= a then a - b else 0
  }

  function Min(a: nat, b: nat): nat {
    if a <= b then a else b
  }

  function Sum(s: seq<nat>): nat {
    if s == [] then 0 else s[0] + Sum(s[1..])
  }

  lemma {:induction false} SumAppend(s: seq<nat>, x: nat)
    ensures Sum(s + [x]) == Sum(s) + x
  {
    if s == [] {
      assert s + [x] == [x];
    } else {
      assert (s + [x])[1..] == s[1..] + [x];
      SumAppend(s[1..], x);
    }
  }
}

/** The flow-control constants shared by every transfer. */
module TransferLimits {
  const TRANSFER_CHUNK_BYTES: nat := 64 * 1024
  const TRANSFER_WINDOW_BYTES: nat := 1024 * 1024
  const TRANSFER_CREDIT_GRANT_BYTES: nat := 256 * 1024
}
