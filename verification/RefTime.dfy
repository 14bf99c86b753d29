/** Reference time: signed 64-bit counts of 100ns units. */
module RefTime {
  /** Units in a second. */
  const UNITS: nat := 10_000_000

  /** Units in a millisecond. */
  const MILLISECOND: int := 10_000

  const MAX_TIME: int := 0x7FFF_FFFF_FFFF_FFFF
}
