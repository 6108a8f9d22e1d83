/** The 32-bit FNV-1a hash, used by the connection registry and by the mobile client's digest. */
module Fnv {

  const OFFSET: bv32 := 0x811c9dc5

  function Absorb(h: bv32, b: bv8): bv32 {
    (h ^ b as bv32) * 0x01000193
  }

  function Fnv1a(bytes: seq<bv8>): bv32 {
    if bytes == [] then OFFSET else Absorb(Fnv1a(bytes[..|bytes| - 1]), bytes[|bytes| - 1])
  }
}
