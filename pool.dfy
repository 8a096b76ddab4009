/**
 * The `Pool` dispatcher of ref-exchange: a closed tagged union over four pool
 * implementations. Every operation matches on the active variant and either
 * forwards to that variant's own method or aborts with `Unsupported`
 * (`unimplemented!()` in the contract).
 *
 * Operations that take `&self` are functions returning their answer.
 * Operations that take `&mut self` are functions returning the updated pool
 * with their answer; `PoolObject.PoolCell` performs them in place.
 */
module PoolDispatch {
  import opened PoolTypes
  import opened InnerPools

  datatype Pool<S, T, R, D> =
    | SimplePool(simplePool: S)
    | StableSwapPool(stablePool: T)
    | RatedSwapPool(ratedPool: R)
    | DegenSwapPool(degenPool: D)

  /** The active variant of a pool, without its state. */
  datatype PoolKind = Simple | StableSwap | RatedSwap | DegenSwap

  function Variant<S, T, R, D>(p: Pool<S, T, R, D>): PoolKind
  {
    match p
    case SimplePool(_) => Simple
    case StableSwapPool(_) => StableSwap
    case RatedSwapPool(_) => RatedSwap
    case DegenSwapPool(_) => DegenSwap
  }

  /** The stable-family variants: every variant but the constant-product one. */
  predicate IsStableFamily(k: PoolKind)
  {
    k != Simple
  }

  // ---------------------------------------------------------------------------
  // Lifting the wrapped pool's answers into the dispatcher's
  // ---------------------------------------------------------------------------

  /** A panic inside the wrapped pool aborts the call with the same message. */
  function Lift<V>(res: Result<V, string>): (r: Result<V, Abort>)
    ensures r != Err(Unsupported)
    ensures r.Ok? <==> res.Ok?
    ensures r.Ok? ==> r.value == res.value
    ensures r.Err? ==> r.error == Panic(res.error)
  {
    match res
    case Ok(v) => Ok(v)
    case Err(m) => Err(Panic(m))
  }

  /** Puts the wrapped pool's new state back into the variant it came from. */
  function Rewrap<X, P>(res: Result<X, string>, wrap: X -> P): (r: Result<P, Abort>)
    ensures r != Err(Unsupported)
    ensures r.Ok? <==> res.Ok?
    ensures r.Ok? ==> r.value == wrap(res.value)
    ensures r.Err? ==> r.error == Panic(res.error)
  {
    match res
    case Ok(x) => Ok(wrap(x))
    case Err(m) => Err(Panic(m))
  }

  /** As `Rewrap`, for an operation that also answers a value. */
  function RewrapWith<X, V, P>(res: Result<(X, V), string>, wrap: X -> P): (r: Result<(P, V), Abort>)
    ensures r != Err(Unsupported)
    ensures r.Ok? <==> res.Ok?
    ensures r.Ok? ==> r.value == (wrap(res.value.0), res.value.1)
    ensures r.Err? ==> r.error == Panic(res.error)
  {
    match res
    case Ok((x, v)) => Ok((wrap(x), v))
    case Err(m) => Err(Panic(m))
  }

  // ---------------------------------------------------------------------------
  // Queries defined on every variant
  // ---------------------------------------------------------------------------

  /** The pool kind tag. */
  function Kind<S, T, R, D>(p: Pool<S, T, R, D>): (k: string)
    ensures k == "SIMPLE_POOL" <==> p.SimplePool?
    ensures k == "STABLE_SWAP" <==> p.StableSwapPool?
    ensures k == "RATED_SWAP" <==> p.RatedSwapPool?
    ensures k == "DEGEN_SWAP" <==> p.DegenSwapPool?
  {
    match p
    case SimplePool(_) => "SIMPLE_POOL"
    case StableSwapPool(_) => "STABLE_SWAP"
    case RatedSwapPool(_) => "RATED_SWAP"
    case DegenSwapPool(_) => "DEGEN_SWAP"
  }

  function Tokens<S, T, R, D>(p: Pool<S, T, R, D>, ops: Ops<S, T, R, D>): (t: seq<AccountId>)
    ensures p.SimplePool? ==> t == ops.simple.common.tokens(p.simplePool)
    ensures p.StableSwapPool? ==> t == ops.stable.common.tokens(p.stablePool)
    ensures p.RatedSwapPool? ==> t == ops.rated.family.common.tokens(p.ratedPool)
    ensures p.DegenSwapPool? ==> t == ops.degen.family.common.tokens(p.degenPool)
  {
    match p
    case SimplePool(pool) => ops.simple.common.tokens(pool)
    case StableSwapPool(pool) => ops.stable.common.tokens(pool)
    case RatedSwapPool(pool) => ops.rated.family.common.tokens(pool)
    case DegenSwapPool(pool) => ops.degen.family.common.tokens(pool)
  }

  /** The number of decimals of the pool's LP shares. */
  function GetShareDecimal<S, T, R, D>(p: Pool<S, T, R, D>): (d: u8)
    ensures d == 18 <==> p.StableSwapPool?
    ensures d == 24 <==> !p.StableSwapPool?
  {
    match p
    case SimplePool(_) => 24
    case StableSwapPool(_) => 18
    case RatedSwapPool(_) => 24
    case DegenSwapPool(_) => 24
  }

  function GetFee<S, T, R, D>(p: Pool<S, T, R, D>, ops: Ops<S, T, R, D>): (f: u32)
    ensures p.SimplePool? ==> f == ops.simple.common.getFee(p.simplePool)
    ensures p.StableSwapPool? ==> f == ops.stable.common.getFee(p.stablePool)
    ensures p.RatedSwapPool? ==> f == ops.rated.family.common.getFee(p.ratedPool)
    ensures p.DegenSwapPool? ==> f == ops.degen.family.common.getFee(p.degenPool)
  {
    match p
    case SimplePool(pool) => ops.simple.common.getFee(pool)
    case StableSwapPool(pool) => ops.stable.common.getFee(pool)
    case RatedSwapPool(pool) => ops.rated.family.common.getFee(pool)
    case DegenSwapPool(pool) => ops.degen.family.common.getFee(pool)
  }

  function GetVolumes<S, T, R, D>(p: Pool<S, T, R, D>, ops: Ops<S, T, R, D>): (v: seq<SwapVolume>)
    ensures p.SimplePool? ==> v == ops.simple.common.getVolumes(p.simplePool)
    ensures p.StableSwapPool? ==> v == ops.stable.common.getVolumes(p.stablePool)
    ensures p.RatedSwapPool? ==> v == ops.rated.family.common.getVolumes(p.ratedPool)
    ensures p.DegenSwapPool? ==> v == ops.degen.family.common.getVolumes(p.degenPool)
  {
    match p
    case SimplePool(pool) => ops.simple.common.getVolumes(pool)
    case StableSwapPool(pool) => ops.stable.common.getVolumes(pool)
    case RatedSwapPool(pool) => ops.rated.family.common.getVolumes(pool)
    case DegenSwapPool(pool) => ops.degen.family.common.getVolumes(pool)
  }

  function ShareTotalBalance<S, T, R, D>(p: Pool<S, T, R, D>, ops: Ops<S, T, R, D>): (b: Balance)
    ensures p.SimplePool? ==> b == ops.simple.common.shareTotalBalance(p.simplePool)
    ensures p.StableSwapPool? ==> b == ops.stable.common.shareTotalBalance(p.stablePool)
    ensures p.RatedSwapPool? ==> b == ops.rated.family.common.shareTotalBalance(p.ratedPool)
    ensures p.DegenSwapPool? ==> b == ops.degen.family.common.shareTotalBalance(p.degenPool)
  {
    match p
    case SimplePool(pool) => ops.simple.common.shareTotalBalance(pool)
    case StableSwapPool(pool) => ops.stable.common.shareTotalBalance(pool)
    case RatedSwapPool(pool) => ops.rated.family.common.shareTotalBalance(pool)
    case DegenSwapPool(pool) => ops.degen.family.common.shareTotalBalance(pool)
  }

  /** `share_balances` answers with the wrapped pool's `share_balance_of`. */
  function ShareBalances<S, T, R, D>(p: Pool<S, T, R, D>, ops: Ops<S, T, R, D>, accountId: AccountId): (b: Balance)
    ensures p.SimplePool? ==> b == ops.simple.common.shareBalanceOf(p.simplePool, accountId)
    ensures p.StableSwapPool? ==> b == ops.stable.common.shareBalanceOf(p.stablePool, accountId)
    ensures p.RatedSwapPool? ==> b == ops.rated.family.common.shareBalanceOf(p.ratedPool, accountId)
    ensures p.DegenSwapPool? ==> b == ops.degen.family.common.shareBalanceOf(p.degenPool, accountId)
  {
    match p
    case SimplePool(pool) => ops.simple.common.shareBalanceOf(pool, accountId)
    case StableSwapPool(pool) => ops.stable.common.shareBalanceOf(pool, accountId)
    case RatedSwapPool(pool) => ops.rated.family.common.shareBalanceOf(pool, accountId)
    case DegenSwapPool(pool) => ops.degen.family.common.shareBalanceOf(pool, accountId)
  }

  function ShareHasRegistered<S, T, R, D>(p: Pool<S, T, R, D>, ops: Ops<S, T, R, D>, accountId: AccountId): (b: bool)
    ensures p.SimplePool? ==> b == ops.simple.common.shareHasRegistered(p.simplePool, accountId)
    ensures p.StableSwapPool? ==> b == ops.stable.common.shareHasRegistered(p.stablePool, accountId)
    ensures p.RatedSwapPool? ==> b == ops.rated.family.common.shareHasRegistered(p.ratedPool, accountId)
    ensures p.DegenSwapPool? ==> b == ops.degen.family.common.shareHasRegistered(p.degenPool, accountId)
  {
    match p
    case SimplePool(pool) => ops.simple.common.shareHasRegistered(pool, accountId)
    case StableSwapPool(pool) => ops.stable.common.shareHasRegistered(pool, accountId)
    case RatedSwapPool(pool) => ops.rated.family.common.shareHasRegistered(pool, accountId)
    case DegenSwapPool(pool) => ops.degen.family.common.shareHasRegistered(pool, accountId)
  }

  // ---------------------------------------------------------------------------
  // Updates defined on every variant
  // ---------------------------------------------------------------------------

  function ModifyTotalFee<S, T, R, D>(p: Pool<S, T, R, D>, ops: Ops<S, T, R, D>, totalFee: u32)
    : (r: Result<Pool<S, T, R, D>, Abort>)
    ensures r != Err(Unsupported)
    ensures r.Ok? ==> Variant(r.value) == Variant(p)
    ensures p.SimplePool? ==>
      r == Rewrap(ops.simple.common.modifyTotalFee(p.simplePool, totalFee), x => SimplePool(x))
    ensures p.StableSwapPool? ==>
      r == Rewrap(ops.stable.common.modifyTotalFee(p.stablePool, totalFee), x => StableSwapPool(x))
    ensures p.RatedSwapPool? ==>
      r == Rewrap(ops.rated.family.common.modifyTotalFee(p.ratedPool, totalFee), x => RatedSwapPool(x))
    ensures p.DegenSwapPool? ==>
      r == Rewrap(ops.degen.family.common.modifyTotalFee(p.degenPool, totalFee), x => DegenSwapPool(x))
  {
    match p
    case SimplePool(pool) => Rewrap(ops.simple.common.modifyTotalFee(pool, totalFee), x => SimplePool(x))
    case StableSwapPool(pool) => Rewrap(ops.stable.common.modifyTotalFee(pool, totalFee), x => StableSwapPool(x))
    case RatedSwapPool(pool) => Rewrap(ops.rated.family.common.modifyTotalFee(pool, totalFee), x => RatedSwapPool(x))
    case DegenSwapPool(pool) => Rewrap(ops.degen.family.common.modifyTotalFee(pool, totalFee), x => DegenSwapPool(x))
  }

  /**
   * Remove liquidity by burning `shares`. The constant-product pool does this
   * with its `remove_liquidity`; the stable family with `remove_liquidity_by_shares`.
   */
  function RemoveLiquidity<S, T, R, D>(
    p: Pool<S, T, R, D>, ops: Ops<S, T, R, D>,
    senderId: AccountId, shares: Balance, minAmounts: seq<Balance>, isView: bool)
    : (r: Result<(Pool<S, T, R, D>, seq<Balance>), Abort>)
    ensures r != Err(Unsupported)
    ensures r.Ok? ==> Variant(r.value.0) == Variant(p)
    ensures p.SimplePool? ==>
      r == RewrapWith(ops.simple.removeLiquidity(p.simplePool, senderId, shares, minAmounts, isView), x => SimplePool(x))
    ensures p.StableSwapPool? ==>
      r == RewrapWith(ops.stable.removeLiquidityByShares(p.stablePool, senderId, shares, minAmounts, isView), x => StableSwapPool(x))
    ensures p.RatedSwapPool? ==>
      r == RewrapWith(ops.rated.family.removeLiquidityByShares(p.ratedPool, senderId, shares, minAmounts, isView), x => RatedSwapPool(x))
    ensures p.DegenSwapPool? ==>
      r == RewrapWith(ops.degen.family.removeLiquidityByShares(p.degenPool, senderId, shares, minAmounts, isView), x => DegenSwapPool(x))
  {
    match p
    case SimplePool(pool) =>
      RewrapWith(ops.simple.removeLiquidity(pool, senderId, shares, minAmounts, isView), x => SimplePool(x))
    case StableSwapPool(pool) =>
      RewrapWith(ops.stable.removeLiquidityByShares(pool, senderId, shares, minAmounts, isView), x => StableSwapPool(x))
    case RatedSwapPool(pool) =>
      RewrapWith(ops.rated.family.removeLiquidityByShares(pool, senderId, shares, minAmounts, isView), x => RatedSwapPool(x))
    case DegenSwapPool(pool) =>
      RewrapWith(ops.degen.family.removeLiquidityByShares(pool, senderId, shares, minAmounts, isView), x => DegenSwapPool(x))
  }

  /** Exact-input swap: sell `amountIn` of `tokenIn` for at least `minAmountOut` of `tokenOut`. */
  function Swap<S, T, R, D>(
    p: Pool<S, T, R, D>, ops: Ops<S, T, R, D>,
    tokenIn: AccountId, amountIn: Balance, tokenOut: AccountId, minAmountOut: Balance,
    adminFee: AdminFees, isView: bool)
    : (r: Result<(Pool<S, T, R, D>, Balance), Abort>)
    ensures r != Err(Unsupported)
    ensures r.Ok? ==> Variant(r.value.0) == Variant(p)
    ensures p.SimplePool? ==>
      r == RewrapWith(ops.simple.common.swap(p.simplePool, tokenIn, amountIn, tokenOut, minAmountOut, adminFee, isView), x => SimplePool(x))
    ensures p.StableSwapPool? ==>
      r == RewrapWith(ops.stable.common.swap(p.stablePool, tokenIn, amountIn, tokenOut, minAmountOut, adminFee, isView), x => StableSwapPool(x))
    ensures p.RatedSwapPool? ==>
      r == RewrapWith(ops.rated.family.common.swap(p.ratedPool, tokenIn, amountIn, tokenOut, minAmountOut, adminFee, isView), x => RatedSwapPool(x))
    ensures p.DegenSwapPool? ==>
      r == RewrapWith(ops.degen.family.common.swap(p.degenPool, tokenIn, amountIn, tokenOut, minAmountOut, adminFee, isView), x => DegenSwapPool(x))
  {
    match p
    case SimplePool(pool) =>
      RewrapWith(ops.simple.common.swap(pool, tokenIn, amountIn, tokenOut, minAmountOut, adminFee, isView), x => SimplePool(x))
    case StableSwapPool(pool) =>
      RewrapWith(ops.stable.common.swap(pool, tokenIn, amountIn, tokenOut, minAmountOut, adminFee, isView), x => StableSwapPool(x))
    case RatedSwapPool(pool) =>
      RewrapWith(ops.rated.family.common.swap(pool, tokenIn, amountIn, tokenOut, minAmountOut, adminFee, isView), x => RatedSwapPool(x))
    case DegenSwapPool(pool) =>
      RewrapWith(ops.degen.family.common.swap(pool, tokenIn, amountIn, tokenOut, minAmountOut, adminFee, isView), x => DegenSwapPool(x))
  }

  function ShareTransfer<S, T, R, D>(
    p: Pool<S, T, R, D>, ops: Ops<S, T, R, D>, senderId: AccountId, receiverId: AccountId, amount: u128)
    : (r: Result<Pool<S, T, R, D>, Abort>)
    ensures r != Err(Unsupported)
    ensures r.Ok? ==> Variant(r.value) == Variant(p)
    ensures p.SimplePool? ==>
      r == Rewrap(ops.simple.common.shareTransfer(p.simplePool, senderId, receiverId, amount), x => SimplePool(x))
    ensures p.StableSwapPool? ==>
      r == Rewrap(ops.stable.common.shareTransfer(p.stablePool, senderId, receiverId, amount), x => StableSwapPool(x))
    ensures p.RatedSwapPool? ==>
      r == Rewrap(ops.rated.family.common.shareTransfer(p.ratedPool, senderId, receiverId, amount), x => RatedSwapPool(x))
    ensures p.DegenSwapPool? ==>
      r == Rewrap(ops.degen.family.common.shareTransfer(p.degenPool, senderId, receiverId, amount), x => DegenSwapPool(x))
  {
    match p
    case SimplePool(pool) => Rewrap(ops.simple.common.shareTransfer(pool, senderId, receiverId, amount), x => SimplePool(x))
    case StableSwapPool(pool) => Rewrap(ops.stable.common.shareTransfer(pool, senderId, receiverId, amount), x => StableSwapPool(x))
    case RatedSwapPool(pool) => Rewrap(ops.rated.family.common.shareTransfer(pool, senderId, receiverId, amount), x => RatedSwapPool(x))
    case DegenSwapPool(pool) => Rewrap(ops.degen.family.common.shareTransfer(pool, senderId, receiverId, amount), x => DegenSwapPool(x))
  }

  function ShareRegister<S, T, R, D>(p: Pool<S, T, R, D>, ops: Ops<S, T, R, D>, accountId: AccountId)
    : (r: Result<Pool<S, T, R, D>, Abort>)
    ensures r != Err(Unsupported)
    ensures r.Ok? ==> Variant(r.value) == Variant(p)
    ensures p.SimplePool? ==>
      r == Rewrap(ops.simple.common.shareRegister(p.simplePool, accountId), x => SimplePool(x))
    ensures p.StableSwapPool? ==>
      r == Rewrap(ops.stable.common.shareRegister(p.stablePool, accountId), x => StableSwapPool(x))
    ensures p.RatedSwapPool? ==>
      r == Rewrap(ops.rated.family.common.shareRegister(p.ratedPool, accountId), x => RatedSwapPool(x))
    ensures p.DegenSwapPool? ==>
      r == Rewrap(ops.degen.family.common.shareRegister(p.degenPool, accountId), x => DegenSwapPool(x))
  {
    match p
    case SimplePool(pool) => Rewrap(ops.simple.common.shareRegister(pool, accountId), x => SimplePool(x))
    case StableSwapPool(pool) => Rewrap(ops.stable.common.shareRegister(pool, accountId), x => StableSwapPool(x))
    case RatedSwapPool(pool) => Rewrap(ops.rated.family.common.shareRegister(pool, accountId), x => RatedSwapPool(x))
    case DegenSwapPool(pool) => Rewrap(ops.degen.family.common.shareRegister(pool, accountId), x => DegenSwapPool(x))
  }

  function ShareUnregister<S, T, R, D>(p: Pool<S, T, R, D>, ops: Ops<S, T, R, D>, accountId: AccountId)
    : (r: Result<Pool<S, T, R, D>, Abort>)
    ensures r != Err(Unsupported)
    ensures r.Ok? ==> Variant(r.value) == Variant(p)
    ensures p.SimplePool? ==>
      r == Rewrap(ops.simple.common.shareUnregister(p.simplePool, accountId), x => SimplePool(x))
    ensures p.StableSwapPool? ==>
      r == Rewrap(ops.stable.common.shareUnregister(p.stablePool, accountId), x => StableSwapPool(x))
    ensures p.RatedSwapPool? ==>
      r == Rewrap(ops.rated.family.common.shareUnregister(p.ratedPool, accountId), x => RatedSwapPool(x))
    ensures p.DegenSwapPool? ==>
      r == Rewrap(ops.degen.family.common.shareUnregister(p.degenPool, accountId), x => DegenSwapPool(x))
  {
    match p
    case SimplePool(pool) => Rewrap(ops.simple.common.shareUnregister(pool, accountId), x => SimplePool(x))
    case StableSwapPool(pool) => Rewrap(ops.stable.common.shareUnregister(pool, accountId), x => StableSwapPool(x))
    case RatedSwapPool(pool) => Rewrap(ops.rated.family.common.shareUnregister(pool, accountId), x => RatedSwapPool(x))
    case DegenSwapPool(pool) => Rewrap(ops.degen.family.common.shareUnregister(pool, accountId), x => DegenSwapPool(x))
  }

  // ---------------------------------------------------------------------------
  // Operations of the constant-product pool only
  // ---------------------------------------------------------------------------

  /**
   * Deposit `amounts`; answers the amounts the pool kept (which the contract
   * writes back into the caller's vector) and the shares minted.
   */
  function AddLiquidity<S, T, R, D>(
    p: Pool<S, T, R, D>, ops: Ops<S, T, R, D>, senderId: AccountId, amounts: seq<Balance>, isView: bool)
    : (r: Result<(Pool<S, T, R, D>, (seq<Balance>, Balance)), Abort>)
    ensures r == Err(Unsupported) <==> !p.SimplePool?
    ensures r.Ok? ==> r.value.0.SimplePool?
    ensures p.SimplePool? ==>
      var res := ops.simple.addLiquidity(p.simplePool, senderId, amounts, isView);
      (r.Ok? <==> res.Ok?) &&
      (r.Ok? ==> r.value == (SimplePool(res.value.0), (res.value.1, res.value.2))) &&
      (r.Err? ==> r.error == Panic(res.error))
  {
    match p
    case SimplePool(pool) =>
      (match ops.simple.addLiquidity(pool, senderId, amounts, isView)
       case Ok((next, kept, shares)) => Ok((SimplePool(next), (kept, shares)))
       case Err(m) => Err(Panic(m)))
    case StableSwapPool(_) => Err(Unsupported)
    case RatedSwapPool(_) => Err(Unsupported)
    case DegenSwapPool(_) => Err(Unsupported)
  }

  /** Exact-output swap: buy `amountOut` of `tokenOut`, spending at most `maxAmountIn` when given. */
  function SwapByOutput<S, T, R, D>(
    p: Pool<S, T, R, D>, ops: Ops<S, T, R, D>,
    tokenIn: AccountId, amountOut: Balance, tokenOut: AccountId, maxAmountIn: Option<u128>,
    adminFee: AdminFees, isView: bool)
    : (r: Result<(Pool<S, T, R, D>, Balance), Abort>)
    ensures r == Err(Unsupported) <==> !p.SimplePool?
    ensures r.Ok? ==> r.value.0.SimplePool?
    ensures p.SimplePool? ==>
      r == RewrapWith(ops.simple.swapByOutput(p.simplePool, tokenIn, amountOut, tokenOut, maxAmountIn, adminFee, isView), x => SimplePool(x))
  {
    match p
    case SimplePool(pool) =>
      RewrapWith(ops.simple.swapByOutput(pool, tokenIn, amountOut, tokenOut, maxAmountIn, adminFee, isView), x => SimplePool(x))
    case StableSwapPool(_) => Err(Unsupported)
    case RatedSwapPool(_) => Err(Unsupported)
    case DegenSwapPool(_) => Err(Unsupported)
  }

  // ---------------------------------------------------------------------------
  // Operations of the stable family only
  // ---------------------------------------------------------------------------

  /** Fee-aware deposit; answers the shares minted (at least `minShares`, as the wrapped pool checks). */
  function AddStableLiquidity<S, T, R, D>(
    p: Pool<S, T, R, D>, ops: Ops<S, T, R, D>,
    senderId: AccountId, amounts: seq<Balance>, minShares: Balance, adminFee: AdminFees, isView: bool)
    : (r: Result<(Pool<S, T, R, D>, Balance), Abort>)
    ensures r == Err(Unsupported) <==> p.SimplePool?
    ensures r.Ok? ==> Variant(r.value.0) == Variant(p)
    ensures p.StableSwapPool? ==>
      r == RewrapWith(ops.stable.addLiquidity(p.stablePool, senderId, amounts, minShares, adminFee, isView), x => StableSwapPool(x))
    ensures p.RatedSwapPool? ==>
      r == RewrapWith(ops.rated.family.addLiquidity(p.ratedPool, senderId, amounts, minShares, adminFee, isView), x => RatedSwapPool(x))
    ensures p.DegenSwapPool? ==>
      r == RewrapWith(ops.degen.family.addLiquidity(p.degenPool, senderId, amounts, minShares, adminFee, isView), x => DegenSwapPool(x))
  {
    match p
    case SimplePool(_) => Err(Unsupported)
    case StableSwapPool(pool) =>
      RewrapWith(ops.stable.addLiquidity(pool, senderId, amounts, minShares, adminFee, isView), x => StableSwapPool(x))
    case RatedSwapPool(pool) =>
      RewrapWith(ops.rated.family.addLiquidity(pool, senderId, amounts, minShares, adminFee, isView), x => RatedSwapPool(x))
    case DegenSwapPool(pool) =>
      RewrapWith(ops.degen.family.addLiquidity(pool, senderId, amounts, minShares, adminFee, isView), x => DegenSwapPool(x))
  }

  /** Withdraw exactly `amounts`; answers the shares burnt (at most `maxBurnShares`, as the wrapped pool checks). */
  function RemoveLiquidityByTokens<S, T, R, D>(
    p: Pool<S, T, R, D>, ops: Ops<S, T, R, D>,
    senderId: AccountId, amounts: seq<Balance>, maxBurnShares: Balance, adminFee: AdminFees, isView: bool)
    : (r: Result<(Pool<S, T, R, D>, Balance), Abort>)
    ensures r == Err(Unsupported) <==> p.SimplePool?
    ensures r.Ok? ==> Variant(r.value.0) == Variant(p)
    ensures p.StableSwapPool? ==>
      r == RewrapWith(ops.stable.removeLiquidityByTokens(p.stablePool, senderId, amounts, maxBurnShares, adminFee, isView), x => StableSwapPool(x))
    ensures p.RatedSwapPool? ==>
      r == RewrapWith(ops.rated.family.removeLiquidityByTokens(p.ratedPool, senderId, amounts, maxBurnShares, adminFee, isView), x => RatedSwapPool(x))
    ensures p.DegenSwapPool? ==>
      r == RewrapWith(ops.degen.family.removeLiquidityByTokens(p.degenPool, senderId, amounts, maxBurnShares, adminFee, isView), x => DegenSwapPool(x))
  {
    match p
    case SimplePool(_) => Err(Unsupported)
    case StableSwapPool(pool) =>
      RewrapWith(ops.stable.removeLiquidityByTokens(pool, senderId, amounts, maxBurnShares, adminFee, isView), x => StableSwapPool(x))
    case RatedSwapPool(pool) =>
      RewrapWith(ops.rated.family.removeLiquidityByTokens(pool, senderId, amounts, maxBurnShares, adminFee, isView), x => RatedSwapPool(x))
    case DegenSwapPool(pool) =>
      RewrapWith(ops.degen.family.removeLiquidityByTokens(pool, senderId, amounts, maxBurnShares, adminFee, isView), x => DegenSwapPool(x))
  }

  /** The share price in precision 1e8. */
  function GetSharePrice<S, T, R, D>(p: Pool<S, T, R, D>, ops: Ops<S, T, R, D>): (r: Result<u128, Abort>)
    ensures r == Err(Unsupported) <==> p.SimplePool?
    ensures p.StableSwapPool? ==>
      r == Lift(ops.stable.getSharePrice(p.stablePool))
    ensures p.RatedSwapPool? ==>
      r == Lift(ops.rated.family.getSharePrice(p.ratedPool))
    ensures p.DegenSwapPool? ==>
      r == Lift(ops.degen.family.getSharePrice(p.degenPool))
  {
    match p
    case SimplePool(_) => Err(Unsupported)
    case StableSwapPool(pool) => Lift(ops.stable.getSharePrice(pool))
    case RatedSwapPool(pool) => Lift(ops.rated.family.getSharePrice(pool))
    case DegenSwapPool(pool) => Lift(ops.degen.family.getSharePrice(pool))
  }

  // ---------------------------------------------------------------------------
  // Quotes of the rated pool only
  // ---------------------------------------------------------------------------

  function PredictAddRatedLiquidity<S, T, R, D>(
    p: Pool<S, T, R, D>, ops: Ops<S, T, R, D>, amounts: seq<Balance>, rates: Option<seq<Balance>>, fees: AdminFees)
    : (r: Result<Balance, Abort>)
    ensures r == Err(Unsupported) <==> !p.RatedSwapPool?
    ensures p.RatedSwapPool? ==>
      r == Lift(ops.rated.predictAddRatedLiquidity(p.ratedPool, amounts, rates, fees))
  {
    match p
    case SimplePool(_) => Err(Unsupported)
    case StableSwapPool(_) => Err(Unsupported)
    case RatedSwapPool(pool) => Lift(ops.rated.predictAddRatedLiquidity(pool, amounts, rates, fees))
    case DegenSwapPool(_) => Err(Unsupported)
  }

  function PredictRemoveRatedLiquidityByTokens<S, T, R, D>(
    p: Pool<S, T, R, D>, ops: Ops<S, T, R, D>, amounts: seq<Balance>, rates: Option<seq<Balance>>, fees: AdminFees)
    : (r: Result<Balance, Abort>)
    ensures r == Err(Unsupported) <==> !p.RatedSwapPool?
    ensures p.RatedSwapPool? ==>
      r == Lift(ops.rated.predictRemoveRatedLiquidityByTokens(p.ratedPool, amounts, rates, fees))
  {
    match p
    case SimplePool(_) => Err(Unsupported)
    case StableSwapPool(_) => Err(Unsupported)
    case RatedSwapPool(pool) => Lift(ops.rated.predictRemoveRatedLiquidityByTokens(pool, amounts, rates, fees))
    case DegenSwapPool(_) => Err(Unsupported)
  }

  function GetRatedReturn<S, T, R, D>(
    p: Pool<S, T, R, D>, ops: Ops<S, T, R, D>,
    tokenIn: AccountId, amountIn: Balance, tokenOut: AccountId, rates: Option<seq<Balance>>, fees: AdminFees)
    : (r: Result<Balance, Abort>)
    ensures r == Err(Unsupported) <==> !p.RatedSwapPool?
    ensures p.RatedSwapPool? ==>
      r == Lift(ops.rated.getRatedReturn(p.ratedPool, tokenIn, amountIn, tokenOut, rates, fees))
  {
    match p
    case SimplePool(_) => Err(Unsupported)
    case StableSwapPool(_) => Err(Unsupported)
    case RatedSwapPool(pool) => Lift(ops.rated.getRatedReturn(pool, tokenIn, amountIn, tokenOut, rates, fees))
    case DegenSwapPool(_) => Err(Unsupported)
  }

  // ---------------------------------------------------------------------------
  // Quotes and the TVL of the degen pool only
  // ---------------------------------------------------------------------------

  function PredictAddDegenLiquidity<S, T, R, D>(
    p: Pool<S, T, R, D>, ops: Ops<S, T, R, D>, amounts: seq<Balance>, degens: Option<seq<Balance>>, fees: AdminFees)
    : (r: Result<Balance, Abort>)
    ensures r == Err(Unsupported) <==> !p.DegenSwapPool?
    ensures p.DegenSwapPool? ==>
      r == Lift(ops.degen.predictAddDegenLiquidity(p.degenPool, amounts, degens, fees))
  {
    match p
    case SimplePool(_) => Err(Unsupported)
    case StableSwapPool(_) => Err(Unsupported)
    case RatedSwapPool(_) => Err(Unsupported)
    case DegenSwapPool(pool) => Lift(ops.degen.predictAddDegenLiquidity(pool, amounts, degens, fees))
  }

  function PredictRemoveDegenLiquidityByTokens<S, T, R, D>(
    p: Pool<S, T, R, D>, ops: Ops<S, T, R, D>, amounts: seq<Balance>, degens: Option<seq<Balance>>, fees: AdminFees)
    : (r: Result<Balance, Abort>)
    ensures r == Err(Unsupported) <==> !p.DegenSwapPool?
    ensures p.DegenSwapPool? ==>
      r == Lift(ops.degen.predictRemoveDegenLiquidityByTokens(p.degenPool, amounts, degens, fees))
  {
    match p
    case SimplePool(_) => Err(Unsupported)
    case StableSwapPool(_) => Err(Unsupported)
    case RatedSwapPool(_) => Err(Unsupported)
    case DegenSwapPool(pool) => Lift(ops.degen.predictRemoveDegenLiquidityByTokens(pool, amounts, degens, fees))
  }

  function GetDegenReturn<S, T, R, D>(
    p: Pool<S, T, R, D>, ops: Ops<S, T, R, D>,
    tokenIn: AccountId, amountIn: Balance, tokenOut: AccountId, degens: Option<seq<Balance>>, fees: AdminFees)
    : (r: Result<Balance, Abort>)
    ensures r == Err(Unsupported) <==> !p.DegenSwapPool?
    ensures p.DegenSwapPool? ==>
      r == Lift(ops.degen.getDegenReturn(p.degenPool, tokenIn, amountIn, tokenOut, degens, fees))
  {
    match p
    case SimplePool(_) => Err(Unsupported)
    case StableSwapPool(_) => Err(Unsupported)
    case RatedSwapPool(_) => Err(Unsupported)
    case DegenSwapPool(pool) => Lift(ops.degen.getDegenReturn(pool, tokenIn, amountIn, tokenOut, degens, fees))
  }

  /** The pool's TVL, reported only once its cached risk factors pass `assert_degens_valid`. */
  function GetTvl<S, T, R, D>(p: Pool<S, T, R, D>, ops: Ops<S, T, R, D>): (r: Result<u128, Abort>)
    ensures r == Err(Unsupported) <==> !p.DegenSwapPool?
    ensures r.Ok? ==> ops.degen.assertDegensValid(p.degenPool).Ok?
    ensures r.Ok? ==> ops.degen.getTvl(p.degenPool) == Ok(r.value)
    ensures p.DegenSwapPool? && ops.degen.assertDegensValid(p.degenPool).Ok? ==>
      r == Lift(ops.degen.getTvl(p.degenPool))
    ensures p.DegenSwapPool? && ops.degen.assertDegensValid(p.degenPool).Err? ==>
      r == Err(Panic(ops.degen.assertDegensValid(p.degenPool).error))
  {
    match p
    case SimplePool(_) => Err(Unsupported)
    case StableSwapPool(_) => Err(Unsupported)
    case RatedSwapPool(_) => Err(Unsupported)
    case DegenSwapPool(pool) =>
      match ops.degen.assertDegensValid(pool)
      case Err(m) => Err(Panic(m))
      case Ok(_) => Lift(ops.degen.getTvl(pool))
  }

  // ---------------------------------------------------------------------------
  // The TVL risk cap
  // ---------------------------------------------------------------------------

  /**
   * `assert_tvl_not_exceed_limit(pool_id)`. The limits read from contract
   * storage are the parameter `limits`. Only a degen pool with a limit
   * configured for `poolId` is checked, against the wrapped pool's own
   * `get_tvl` (without `assert_degens_valid`); the check passes at equality.
   */
  function AssertTvlNotExceedLimit<S, T, R, D>(
    p: Pool<S, T, R, D>, ops: Ops<S, T, R, D>, limits: map<u64, DegenPoolLimit>, poolId: u64)
    : (r: Result<(), Abort>)
    ensures r != Err(Unsupported)
    ensures !p.DegenSwapPool? || poolId !in limits ==> r.Ok?
    ensures p.DegenSwapPool? && poolId in limits ==>
      (r.Ok? <==> ops.degen.getTvl(p.degenPool).Ok? && ops.degen.getTvl(p.degenPool).value <= limits[poolId].tvlLimit)
    ensures p.DegenSwapPool? && poolId in limits && ops.degen.getTvl(p.degenPool).Err? ==>
      r == Err(Panic(ops.degen.getTvl(p.degenPool).error))
    ensures p.DegenSwapPool? && r.Err? && ops.degen.getTvl(p.degenPool).Ok? ==> r == Err(Panic(ExceedMaxTvl))
  {
    match p
    case DegenSwapPool(pool) =>
      if poolId in limits then
        match ops.degen.getTvl(pool)
        case Err(m) => Err(Panic(m))
        case Ok(tvl) => if tvl <= limits[poolId].tvlLimit then Ok(()) else Err(Panic(ExceedMaxTvl))
      else
        Ok(())
    case _ => Ok(())
  }

  // ---------------------------------------------------------------------------
  // Properties relating several operations
  // ---------------------------------------------------------------------------

  /** The kind tag is a function of the variant alone, and the four tags are distinct. */
  lemma KindIdentifiesVariant<S, T, R, D>(p: Pool<S, T, R, D>, q: Pool<S, T, R, D>)
    ensures Kind(p) == Kind(q) <==> Variant(p) == Variant(q)
  {
  }

  /**
   * Where `get_tvl` answers, the TVL check agrees with it: it fails exactly
   * when a limit is configured for the pool and the TVL is above it.
   */
  lemma TvlCheckAgreesWithGetTvl<S, T, R, D>(
    p: Pool<S, T, R, D>, ops: Ops<S, T, R, D>, limits: map<u64, DegenPoolLimit>, poolId: u64)
    requires GetTvl(p, ops).Ok?
    ensures AssertTvlNotExceedLimit(p, ops, limits, poolId).Err? <==>
      poolId in limits && GetTvl(p, ops).value > limits[poolId].tvlLimit
  {
  }

  /**
   * The TVL check does not run `assert_degens_valid`: a degen pool whose risk
   * factors are rejected, so that `get_tvl` panics, still passes the check
   * when no limit is configured or its TVL is within the limit.
   */
  lemma TvlCheckSkipsDegensValidation<S, T, R, D>(
    p: Pool<S, T, R, D>, ops: Ops<S, T, R, D>, limits: map<u64, DegenPoolLimit>, poolId: u64)
    requires p.DegenSwapPool? && ops.degen.assertDegensValid(p.degenPool).Err?
    requires poolId !in limits ||
      (ops.degen.getTvl(p.degenPool).Ok? && ops.degen.getTvl(p.degenPool).value <= limits[poolId].tvlLimit)
    ensures GetTvl(p, ops).Err? && GetTvl(p, ops) != Err(Unsupported)
    ensures AssertTvlNotExceedLimit(p, ops, limits, poolId).Ok?
  {
  }
}
