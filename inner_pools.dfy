/**
 * The interfaces of the four wrapped pool implementations, as the dispatcher
 * calls them. Their code (constant-product and stableswap math, the share
 * ledger, fee splitting) is not part of this model: each implementation is a
 * record of functions over its own state type, and every property proved
 * about the dispatcher holds whatever these functions do.
 *
 * An operation that can panic returns `Err(message)`; an operation that
 * updates the pool (`&mut self`) returns the pool's new state with its result.
 */
module InnerPools {
  import opened PoolTypes

  /** Operations every implementation offers under the same name and shape. */
  datatype CommonOps<!S> = CommonOps(
    tokens: S -> seq<AccountId>,
    modifyTotalFee: (S, u32) -> Result<S, string>,
    getFee: S -> u32,
    getVolumes: S -> seq<SwapVolume>,
    /** swap(token_in, amount_in, token_out, min_amount_out, admin_fee, is_view) */
    swap: (S, AccountId, Balance, AccountId, Balance, AdminFees, bool) -> Result<(S, Balance), string>,
    shareTotalBalance: S -> Balance,
    shareBalanceOf: (S, AccountId) -> Balance,
    /** share_transfer(sender_id, receiver_id, amount) */
    shareTransfer: (S, AccountId, AccountId, u128) -> Result<S, string>,
    shareHasRegistered: (S, AccountId) -> bool,
    shareRegister: (S, AccountId) -> Result<S, string>,
    shareUnregister: (S, AccountId) -> Result<S, string>
  )

  /** The constant-product pool (`SimplePool`). */
  datatype SimpleOps<!S> = SimpleOps(
    common: CommonOps<S>,
    /**
     * add_liquidity(sender_id, amounts, is_view): the new state, the amounts
     * actually kept (written back into the caller's vector) and the shares minted.
     */
    addLiquidity: (S, AccountId, seq<Balance>, bool) -> Result<(S, seq<Balance>, Balance), string>,
    /** remove_liquidity(sender_id, shares, min_amounts, is_view) */
    removeLiquidity: (S, AccountId, Balance, seq<Balance>, bool) -> Result<(S, seq<Balance>), string>,
    /** swap_by_output(token_in, amount_out, token_out, max_amount_in, admin_fee, is_view) */
    swapByOutput: (S, AccountId, Balance, AccountId, Option<u128>, AdminFees, bool) -> Result<(S, Balance), string>
  )

  /** What the stable, rated and degen pools share: the fee-aware liquidity operations. */
  datatype StableFamilyOps<!T> = StableFamilyOps(
    common: CommonOps<T>,
    /** add_liquidity(sender_id, amounts, min_shares, admin_fee, is_view) */
    addLiquidity: (T, AccountId, seq<Balance>, Balance, AdminFees, bool) -> Result<(T, Balance), string>,
    /** remove_liquidity_by_shares(sender_id, shares, min_amounts, is_view) */
    removeLiquidityByShares: (T, AccountId, Balance, seq<Balance>, bool) -> Result<(T, seq<Balance>), string>,
    /** remove_liquidity_by_tokens(sender_id, amounts, max_burn_shares, admin_fee, is_view) */
    removeLiquidityByTokens: (T, AccountId, seq<Balance>, Balance, AdminFees, bool) -> Result<(T, Balance), string>,
    getSharePrice: T -> Result<u128, string>
  )

  /** The rate-adjusted stableswap pool (`RatedSwapPool`). */
  datatype RatedOps<!R> = RatedOps(
    family: StableFamilyOps<R>,
    /** predict_add_rated_liquidity(amounts, rates, fees) */
    predictAddRatedLiquidity: (R, seq<Balance>, Option<seq<Balance>>, AdminFees) -> Result<Balance, string>,
    /** predict_remove_rated_liquidity_by_tokens(amounts, rates, fees) */
    predictRemoveRatedLiquidityByTokens: (R, seq<Balance>, Option<seq<Balance>>, AdminFees) -> Result<Balance, string>,
    /** get_rated_return(token_in, amount_in, token_out, rates, fees) */
    getRatedReturn: (R, AccountId, Balance, AccountId, Option<seq<Balance>>, AdminFees) -> Result<Balance, string>
  )

  /** The risk-capped stableswap pool (`DegenSwapPool`). */
  datatype DegenOps<!D> = DegenOps(
    family: StableFamilyOps<D>,
    /** predict_add_degen_liquidity(amounts, degens, fees) */
    predictAddDegenLiquidity: (D, seq<Balance>, Option<seq<Balance>>, AdminFees) -> Result<Balance, string>,
    /** predict_remove_degen_liquidity_by_tokens(amounts, degens, fees) */
    predictRemoveDegenLiquidityByTokens: (D, seq<Balance>, Option<seq<Balance>>, AdminFees) -> Result<Balance, string>,
    /** get_degen_return(token_in, amount_in, token_out, degens, fees) */
    getDegenReturn: (D, AccountId, Balance, AccountId, Option<seq<Balance>>, AdminFees) -> Result<Balance, string>,
    /** assert_degens_valid(): panics when the cached risk factors are unusable. */
    assertDegensValid: D -> Result<(), string>,
    getTvl: D -> Result<u128, string>
  )

  /** The four implementations the dispatcher can wrap. */
  datatype Ops<!S, !T, !R, !D> = Ops(
    simple: SimpleOps<S>,
    stable: StableFamilyOps<T>,
    rated: RatedOps<R>,
    degen: DegenOps<D>
  )
}
