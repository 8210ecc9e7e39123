/** The board, which names the current round and its mining window, and the protocol's settings. */
module BoardState {
  import opened Basics

  const ROUND_SLOTS: uint64 := 150
  const INTERMISSION_SLOTS: uint64 := 25
  const ONE_DAY_SLOTS: uint64 := 24 * 60 * 150
  const TWELVE_HOURS_SLOTS: uint64 := 12 * 60 * 150

  /** `endSlot` is the largest slot while the round waits for its first bet. */
  datatype Board = Board(roundId: uint64, startSlot: uint64, endSlot: uint64)

  datatype Config = Config(roundSlots: uint64, intermissionSlots: uint64, godlPerRound: uint64, motherlodeDenominator: uint64) {

    /** Zero means unset. */
    function RoundSlots(): uint64 {
      if roundSlots == 0 then ROUND_SLOTS else roundSlots
    }

    function IntermissionSlots(): uint64 {
      if intermissionSlots == 0 then INTERMISSION_SLOTS else intermissionSlots
    }
  }

  class BoardAccount {
    var roundId: uint64
    var startSlot: uint64
    var endSlot: uint64

    ghost function View(): Board
      reads this
    {
      Board(roundId, startSlot, endSlot)
    }
  }
}
