/** Machine integers, program errors and results, shared by every ledger. */
module Basics {

  type uint8 = x: int | 0 <= x < 0x100
  type uint64 = x: int | 0 <= x < 0x1_0000_0000_0000_0000
  type uint128 = x: int | 0 <= x < 0x1_0000_0000_0000_0000_0000_0000_0000_0000
  type int64 = x: int | -0x8000_0000_0000_0000 <= x < 0x8000_0000_0000_0000

  const UINT64_MAX: uint64 := 0xFFFF_FFFF_FFFF_FFFF
  /** 2.1 million GODL, in grams of 10^-11. */
  const MAX_SUPPLY: uint64 := 210_000_000_000_000_000

  const DENOMINATOR_BPS: uint64 := 10_000

  const INT64_MAX: int64 := 0x7FFF_FFFF_FFFF_FFFF

  /** Why a step fails. `Panic` is an aborted instruction: a failed assertion or a checked
      plain `+`, `-` or `/` that leaves its range. */
  datatype Error =
    | Panic
    | AmountTooSmall
    | InvalidLockDuration
    | StakeLocked
    | StakeOverflow
    | StakeAlreadyExists
    | StakeNotEmpty
    | NftAlreadyStaked
    | NftNotStaked
    | MergeSameStake
    | MissingAccount
    | InvalidAccountData
    | InvalidInstructionData
    | InsufficientTokens
    | AlreadyDeployedThisRound
    | LegacyInstructionExpired
    | GoldDistributionLocked
    | GoldSlippageExceeded
    | MinerExtendedMissing
    | OtcQuoteExpired
    | InsufficientOtcGodlBalance
    | ArithmeticOverflow

  datatype Result<+T> = Ok(value: T) | Err(error: Error) {

    predicate IsFailure() {
      Err?
    }

    function PropagateFailure<U>(): Result<U>
      requires Err?
    {
      Err(error)
    }

    function Extract(): T
      requires Ok?
    {
      value
    }
  }

  datatype Option<+T> = None | Some(value: T)

  function Min(a: int, b: int): int {
    if a <= b then a else b
  }

  function Max(a: int, b: int): int {
    if a >= b then a else b
  }

  /** A sum that must stay in 64 bits. */
  function Add(a: uint64, b: uint64, error: Error): Result<uint64> {
    if a + b <= UINT64_MAX then Ok(a + b) else Err(error)
  }

  /** A difference that must not go below zero. */
  function Subtract(a: uint64, b: uint64, error: Error): Result<uint64> {
    if b <= a then Ok(a - b) else Err(error)
  }

  function Need(condition: bool, error: Error): Result<()> {
    if condition then Ok(()) else Err(error)
  }

  lemma MultiplyMonotone(a: int, b: int, c: int)
    requires a <= b && 0 <= c
    ensures a * c <= b * c
  {
  }
}
