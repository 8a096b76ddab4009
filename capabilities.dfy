/**
 * The call surface of `Pool` as one datatype, the table of which variant
 * offers which operation, and the properties that hold of every call and of
 * every sequence of calls: an operation aborts as unsupported exactly where
 * the table says so, no call changes the active variant, and the `&self`
 * calls never change the pool.
 */
module PoolCapabilities {
  import opened PoolTypes
  import opened InnerPools
  import Dispatch = PoolDispatch

  type Pool<S, T, R, D> = Dispatch.Pool<S, T, R, D>
  type PoolKind = Dispatch.PoolKind

  /** One public method of `Pool`, with its arguments. */
  datatype Call =
    | Kind
    | Tokens
    | ModifyTotalFee(totalFee: u32)
    | AddLiquidity(senderId: AccountId, amounts: seq<Balance>, isView: bool)
    | AddStableLiquidity(senderId: AccountId, amounts: seq<Balance>, minShares: Balance, adminFee: AdminFees, isView: bool)
    | RemoveLiquidity(senderId: AccountId, shares: Balance, minAmounts: seq<Balance>, isView: bool)
    | RemoveLiquidityByTokens(senderId: AccountId, amounts: seq<Balance>, maxBurnShares: Balance, adminFee: AdminFees, isView: bool)
    | GetShareDecimal
    | GetFee
    | GetVolumes
    | GetSharePrice
    | GetTvl
    | Swap(tokenIn: AccountId, amountIn: Balance, tokenOut: AccountId, minAmountOut: Balance, adminFee: AdminFees, isView: bool)
    | SwapByOutput(tokenIn: AccountId, amountOut: Balance, tokenOut: AccountId, maxAmountIn: Option<u128>, adminFee: AdminFees, isView: bool)
    | ShareTotalBalance
    | ShareBalances(accountId: AccountId)
    | ShareTransfer(senderId: AccountId, receiverId: AccountId, amount: u128)
    | ShareHasRegistered(accountId: AccountId)
    | ShareRegister(accountId: AccountId)
    | ShareUnregister(accountId: AccountId)
    | PredictAddRatedLiquidity(amounts: seq<Balance>, rates: Option<seq<Balance>>, fees: AdminFees)
    | PredictAddDegenLiquidity(amounts: seq<Balance>, degens: Option<seq<Balance>>, fees: AdminFees)
    | PredictRemoveRatedLiquidityByTokens(amounts: seq<Balance>, rates: Option<seq<Balance>>, fees: AdminFees)
    | PredictRemoveDegenLiquidityByTokens(amounts: seq<Balance>, degens: Option<seq<Balance>>, fees: AdminFees)
    | GetRatedReturn(tokenIn: AccountId, amountIn: Balance, tokenOut: AccountId, rates: Option<seq<Balance>>, fees: AdminFees)
    | GetDegenReturn(tokenIn: AccountId, amountIn: Balance, tokenOut: AccountId, degens: Option<seq<Balance>>, fees: AdminFees)
    | AssertTvlNotExceedLimit(poolId: u64)

  /** What a call that did not abort answers. */
  datatype Reply =
    | Done
    | Text(text: string)
    | TokenList(tokens: seq<AccountId>)
    | Decimals(decimals: u8)
    | Fee(fee: u32)
    | Volumes(volumes: seq<SwapVolume>)
    | Amount(amount: u128)
    | Amounts(amounts: seq<Balance>)
    | Registered(registered: bool)
    | Added(kept: seq<Balance>, shares: Balance)

  /** The methods that take `&self`. */
  predicate IsQuery(c: Call)
  {
    match c
    case ModifyTotalFee(_) | AddLiquidity(_, _, _) | AddStableLiquidity(_, _, _, _, _)
      | RemoveLiquidity(_, _, _, _) | RemoveLiquidityByTokens(_, _, _, _, _)
      | Swap(_, _, _, _, _, _) | SwapByOutput(_, _, _, _, _, _)
      | ShareTransfer(_, _, _) | ShareRegister(_) | ShareUnregister(_) => false
    case _ => true
  }

  /**
   * The capability table: which variants offer each operation. Everything
   * not listed is offered by all four.
   */
  predicate Supported(k: PoolKind, c: Call)
  {
    match c
    case AddLiquidity(_, _, _) | SwapByOutput(_, _, _, _, _, _) =>
      k == Dispatch.Simple
    case AddStableLiquidity(_, _, _, _, _) | RemoveLiquidityByTokens(_, _, _, _, _) | GetSharePrice =>
      Dispatch.IsStableFamily(k)
    case PredictAddRatedLiquidity(_, _, _) | PredictRemoveRatedLiquidityByTokens(_, _, _)
      | GetRatedReturn(_, _, _, _, _) =>
      k == Dispatch.RatedSwap
    case GetTvl | PredictAddDegenLiquidity(_, _, _) | PredictRemoveDegenLiquidityByTokens(_, _, _)
      | GetDegenReturn(_, _, _, _, _) =>
      k == Dispatch.DegenSwap
    case _ => true
  }

  // ---------------------------------------------------------------------------
  // Performing one call
  // ---------------------------------------------------------------------------

  /** An `&self` call: the pool is unchanged, the answer is wrapped as a reply. */
  function Answer<S, T, R, D, V>(p: Pool<S, T, R, D>, res: Result<V, Abort>, reply: V -> Reply)
    : (r: Result<(Pool<S, T, R, D>, Reply), Abort>)
    ensures r.Ok? ==> r.value.0 == p
    ensures r == Err(Unsupported) <==> res == Err(Unsupported)
  {
    match res
    case Ok(v) => Ok((p, reply(v)))
    case Err(e) => Err(e)
  }

  /** An `&mut self` call that answers nothing. */
  function Update<S, T, R, D>(res: Result<Pool<S, T, R, D>, Abort>)
    : (r: Result<(Pool<S, T, R, D>, Reply), Abort>)
    ensures r.Ok? <==> res.Ok?
    ensures r.Ok? ==> r.value.0 == res.value
    ensures r == Err(Unsupported) <==> res == Err(Unsupported)
  {
    match res
    case Ok(q) => Ok((q, Done))
    case Err(e) => Err(e)
  }

  /** An `&mut self` call that answers a value. */
  function UpdateWith<S, T, R, D, V>(res: Result<(Pool<S, T, R, D>, V), Abort>, reply: V -> Reply)
    : (r: Result<(Pool<S, T, R, D>, Reply), Abort>)
    ensures r.Ok? <==> res.Ok?
    ensures r.Ok? ==> r.value.0 == res.value.0
    ensures r == Err(Unsupported) <==> res == Err(Unsupported)
  {
    match res
    case Ok((q, v)) => Ok((q, reply(v)))
    case Err(e) => Err(e)
  }

  /** Performs one call on a pool: the new pool and the reply, or why it aborted. */
  function Invoke<S, T, R, D>(p: Pool<S, T, R, D>, ops: Ops<S, T, R, D>, limits: map<u64, DegenPoolLimit>, c: Call)
    : Result<(Pool<S, T, R, D>, Reply), Abort>
  {
    match c
    case Kind => Ok((p, Text(Dispatch.Kind(p))))
    case Tokens => Ok((p, TokenList(Dispatch.Tokens(p, ops))))
    case ModifyTotalFee(totalFee) => Update(Dispatch.ModifyTotalFee(p, ops, totalFee))
    case AddLiquidity(senderId, amounts, isView) =>
      UpdateWith(Dispatch.AddLiquidity(p, ops, senderId, amounts, isView), (a: (seq<Balance>, Balance)) => Added(a.0, a.1))
    case AddStableLiquidity(senderId, amounts, minShares, adminFee, isView) =>
      UpdateWith(Dispatch.AddStableLiquidity(p, ops, senderId, amounts, minShares, adminFee, isView), v => Amount(v))
    case RemoveLiquidity(senderId, shares, minAmounts, isView) =>
      UpdateWith(Dispatch.RemoveLiquidity(p, ops, senderId, shares, minAmounts, isView), v => Amounts(v))
    case RemoveLiquidityByTokens(senderId, amounts, maxBurnShares, adminFee, isView) =>
      UpdateWith(Dispatch.RemoveLiquidityByTokens(p, ops, senderId, amounts, maxBurnShares, adminFee, isView), v => Amount(v))
    case GetShareDecimal => Ok((p, Decimals(Dispatch.GetShareDecimal(p))))
    case GetFee => Ok((p, Fee(Dispatch.GetFee(p, ops))))
    case GetVolumes => Ok((p, Volumes(Dispatch.GetVolumes(p, ops))))
    case GetSharePrice => Answer(p, Dispatch.GetSharePrice(p, ops), v => Amount(v))
    case GetTvl => Answer(p, Dispatch.GetTvl(p, ops), v => Amount(v))
    case Swap(tokenIn, amountIn, tokenOut, minAmountOut, adminFee, isView) =>
      UpdateWith(Dispatch.Swap(p, ops, tokenIn, amountIn, tokenOut, minAmountOut, adminFee, isView), v => Amount(v))
    case SwapByOutput(tokenIn, amountOut, tokenOut, maxAmountIn, adminFee, isView) =>
      UpdateWith(Dispatch.SwapByOutput(p, ops, tokenIn, amountOut, tokenOut, maxAmountIn, adminFee, isView), v => Amount(v))
    case ShareTotalBalance => Ok((p, Amount(Dispatch.ShareTotalBalance(p, ops))))
    case ShareBalances(accountId) => Ok((p, Amount(Dispatch.ShareBalances(p, ops, accountId))))
    case ShareTransfer(senderId, receiverId, amount) =>
      Update(Dispatch.ShareTransfer(p, ops, senderId, receiverId, amount))
    case ShareHasRegistered(accountId) => Ok((p, Registered(Dispatch.ShareHasRegistered(p, ops, accountId))))
    case ShareRegister(accountId) => Update(Dispatch.ShareRegister(p, ops, accountId))
    case ShareUnregister(accountId) => Update(Dispatch.ShareUnregister(p, ops, accountId))
    case PredictAddRatedLiquidity(amounts, rates, fees) =>
      Answer(p, Dispatch.PredictAddRatedLiquidity(p, ops, amounts, rates, fees), v => Amount(v))
    case PredictAddDegenLiquidity(amounts, degens, fees) =>
      Answer(p, Dispatch.PredictAddDegenLiquidity(p, ops, amounts, degens, fees), v => Amount(v))
    case PredictRemoveRatedLiquidityByTokens(amounts, rates, fees) =>
      Answer(p, Dispatch.PredictRemoveRatedLiquidityByTokens(p, ops, amounts, rates, fees), v => Amount(v))
    case PredictRemoveDegenLiquidityByTokens(amounts, degens, fees) =>
      Answer(p, Dispatch.PredictRemoveDegenLiquidityByTokens(p, ops, amounts, degens, fees), v => Amount(v))
    case GetRatedReturn(tokenIn, amountIn, tokenOut, rates, fees) =>
      Answer(p, Dispatch.GetRatedReturn(p, ops, tokenIn, amountIn, tokenOut, rates, fees), v => Amount(v))
    case GetDegenReturn(tokenIn, amountIn, tokenOut, degens, fees) =>
      Answer(p, Dispatch.GetDegenReturn(p, ops, tokenIn, amountIn, tokenOut, degens, fees), v => Amount(v))
    case AssertTvlNotExceedLimit(poolId) =>
      Answer(p, Dispatch.AssertTvlNotExceedLimit(p, ops, limits, poolId), _ => Done)
  }

  /**
   * The pool after a call: its new state when the call went through, the
   * old one when it aborted (a panic reverts the whole transaction).
   */
  function After<S, T, R, D>(p: Pool<S, T, R, D>, ops: Ops<S, T, R, D>, limits: map<u64, DegenPoolLimit>, c: Call)
    : Pool<S, T, R, D>
  {
    var r := Invoke(p, ops, limits, c);
    if r.Ok? then r.value.0 else p
  }

  /** The pool after a history of calls, each its own transaction. */
  function Run<S, T, R, D>(p: Pool<S, T, R, D>, ops: Ops<S, T, R, D>, limits: map<u64, DegenPoolLimit>, calls: seq<Call>)
    : Pool<S, T, R, D>
    decreases |calls|
  {
    if calls == [] then p else Run(After(p, ops, limits, calls[0]), ops, limits, calls[1..])
  }

  // ---------------------------------------------------------------------------
  // Properties of one call
  // ---------------------------------------------------------------------------

  /** A call aborts as unsupported exactly when the table says the active variant lacks it. */
  lemma CapabilityMatrix<S, T, R, D>(p: Pool<S, T, R, D>, ops: Ops<S, T, R, D>, limits: map<u64, DegenPoolLimit>, c: Call)
    ensures Invoke(p, ops, limits, c) == Err(Unsupported) <==> !Supported(Dispatch.Variant(p), c)
  {
  }

  /** No call changes the active variant. */
  lemma InvokePreservesVariant<S, T, R, D>(p: Pool<S, T, R, D>, ops: Ops<S, T, R, D>, limits: map<u64, DegenPoolLimit>, c: Call)
    ensures Dispatch.Variant(After(p, ops, limits, c)) == Dispatch.Variant(p)
  {
  }

  /** The `&self` calls leave the pool as it was. */
  lemma QueriesLeavePoolUnchanged<S, T, R, D>(p: Pool<S, T, R, D>, ops: Ops<S, T, R, D>, limits: map<u64, DegenPoolLimit>, c: Call)
    requires IsQuery(c)
    ensures After(p, ops, limits, c) == p
  {
  }

  /** Whatever the pool, exactly one of the two deposit operations is unsupported. */
  lemma ExactlyOneDepositOperation<S, T, R, D>(
    p: Pool<S, T, R, D>, ops: Ops<S, T, R, D>, limits: map<u64, DegenPoolLimit>,
    senderId: AccountId, amounts: seq<Balance>, minShares: Balance, adminFee: AdminFees, isView: bool)
    ensures (Invoke(p, ops, limits, AddLiquidity(senderId, amounts, isView)) == Err(Unsupported)) !=
            (Invoke(p, ops, limits, AddStableLiquidity(senderId, amounts, minShares, adminFee, isView)) == Err(Unsupported))
  {
  }

  // ---------------------------------------------------------------------------
  // Properties of every history of calls
  // ---------------------------------------------------------------------------

  /** The variant is fixed at creation: no history of calls changes it. */
  lemma {:induction false} RunPreservesVariant<S, T, R, D>(
    p: Pool<S, T, R, D>, ops: Ops<S, T, R, D>, limits: map<u64, DegenPoolLimit>, calls: seq<Call>)
    ensures Dispatch.Variant(Run(p, ops, limits, calls)) == Dispatch.Variant(p)
    decreases |calls|
  {
    if calls != [] {
      InvokePreservesVariant(p, ops, limits, calls[0]);
      RunPreservesVariant(After(p, ops, limits, calls[0]), ops, limits, calls[1..]);
    }
  }

  /** A history made only of `&self` calls leaves the pool as it was. */
  lemma {:induction false} QueryHistoryLeavesPoolUnchanged<S, T, R, D>(
    p: Pool<S, T, R, D>, ops: Ops<S, T, R, D>, limits: map<u64, DegenPoolLimit>, calls: seq<Call>)
    requires forall i :: 0 <= i < |calls| ==> IsQuery(calls[i])
    ensures Run(p, ops, limits, calls) == p
    decreases |calls|
  {
    if calls != [] {
      QueriesLeavePoolUnchanged(p, ops, limits, calls[0]);
      QueryHistoryLeavesPoolUnchanged(p, ops, limits, calls[1..]);
    }
  }

  /**
   * Capability gaps fail predictably: after any history, a call is
   * unsupported exactly when it was unsupported on the pool as created.
   */
  lemma CapabilitiesNeverChange<S, T, R, D>(
    p: Pool<S, T, R, D>, ops: Ops<S, T, R, D>, limits: map<u64, DegenPoolLimit>, history: seq<Call>, c: Call)
    ensures Invoke(Run(p, ops, limits, history), ops, limits, c) == Err(Unsupported)
        <==> Invoke(p, ops, limits, c) == Err(Unsupported)
  {
    RunPreservesVariant(p, ops, limits, history);
    CapabilityMatrix(p, ops, limits, c);
    CapabilityMatrix(Run(p, ops, limits, history), ops, limits, c);
  }

  /**
   * The TVL check is a no-op on every variant but the degen pool, whatever
   * history of calls the pool has been through.
   */
  lemma TvlCheckNeverFailsOffDegen<S, T, R, D>(
    p: Pool<S, T, R, D>, ops: Ops<S, T, R, D>, limits: map<u64, DegenPoolLimit>, history: seq<Call>, poolId: u64)
    requires !p.DegenSwapPool?
    ensures Invoke(Run(p, ops, limits, history), ops, limits, AssertTvlNotExceedLimit(poolId)).Ok?
  {
    RunPreservesVariant(p, ops, limits, history);
  }
}
