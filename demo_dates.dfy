/** The seed dates the demo lists share. */
module DemoDates {
  import opened TodoTypes

  /** `new Date('2024-01-DD').getTime()` for the seed dates (UTC midnight). */
  const JAN_13: Timestamp := 1705104000000
  const JAN_14: Timestamp := 1705190400000
  const JAN_15: Timestamp := 1705276800000
  const JAN_16: Timestamp := 1705363200000
  const JAN_17: Timestamp := 1705449600000
}
