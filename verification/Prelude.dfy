/** Value types shared by every component of the enclave model. */
module Prelude {

  datatype Option<+T> = None | Some(value: T)

  type Bytes = seq<bv8>

  /** Unix seconds. The enclave reads a clock after 1970, so times are non-negative. */
  type Time = nat

  /** An identifier that the code only compares for equality (UUIDs, transaction signatures). */
  datatype Id = Id(text: string)

  datatype Pubkey = Pubkey(bytes: Bytes)

  const U64_LIMIT: nat := 0x1_0000_0000_0000_0000

  function SatSub(a: nat, b: nat): nat { if a < b then 0 else a - b }
}
