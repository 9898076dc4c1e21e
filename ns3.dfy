/** The pieces of the ns-3 simulator that the alert application touches:
    its fixed-width integers, virtual time and object handles. */
module Ns3 {

  type uint32 = x: int | 0 <= x < 0x1_0000_0000
  type uint64 = x: int | 0 <= x < 0x1_0000_0000_0000_0000

  const UINT32_MAX: uint32 := 0xFFFF_FFFF

  /** Virtual time, in nanoseconds (the default resolution of ns-3's Time). */
  type Time = nat

  const NanosPerSecond: nat := 1_000_000_000

  /** The identity of a (non-null) socket object. */
  type SocketId = nat

  /** An ns-3 Address, as its serialised bytes; a default-constructed Address is empty. */
  type Address = seq<bv8>

  datatype Option<T> = None | Some(value: T)
}
