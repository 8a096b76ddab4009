/**
 * Value types shared by the pool dispatcher: the fixed-width integers of the
 * contract, account identifiers, the failure kinds of a dispatched call, and
 * the small records that the dispatcher passes through without reading.
 */
module PoolTypes {

  /** Fixed-width unsigned integers of the contract, as subsets of nat. */
  type u8 = x: nat | x < 0x100
  type u32 = x: nat | x < 0x1_0000_0000
  type u64 = x: nat | x < 0x1_0000_0000_0000_0000
  type u128 = x: nat | x < 0x1_0000_0000_0000_0000_0000_0000_0000_0000

  /** A NEAR account identifier, an opaque string. */
  type AccountId = string

  /** Token and share amounts (`near_sdk::Balance` is a u128). */
  type Balance = u128

  datatype Option<+T> = None | Some(value: T)

  datatype Result<+T, +E> = Ok(value: T) | Err(error: E)

  /**
   * Why a call on a pool aborts: `Unsupported` is the dispatcher's own
   * `unimplemented!()` for an operation the active variant does not offer;
   * `Panic` is a failed assertion, either the dispatcher's TVL check or one
   * raised inside the wrapped pool, carrying its message.
   */
  datatype Abort = Unsupported | Panic(message: string)

  /** Cumulative swap volume of one token of a pool. */
  datatype SwapVolume = SwapVolume(input: u128, output: u128)

  /**
   * The fee split handed to swaps and liquidity operations. The dispatcher
   * only forwards it; its fields are those the wrapped pools read.
   */
  datatype AdminFees = AdminFees(exchangeFeeRate: u32, referralFeeRate: u32)

  /** The risk limit configured for one degen pool. */
  datatype DegenPoolLimit = DegenPoolLimit(tvlLimit: u128)

  /** The message of the TVL check's assertion. */
  const ExceedMaxTvl: string := "Exceed Max TVL"
}
