/**
 * A `Pool` as the contract holds it: a storage cell whose `&mut self`
 * methods update the wrapped pool in place. A call that aborts leaves the
 * cell as it was, since a panic reverts the whole transaction. The variant
 * is fixed when the cell is created and no method changes it.
 */
module PoolObject {
  import opened PoolTypes
  import opened InnerPools
  import Dispatch = PoolDispatch

  class PoolCell<S, T, R, D> {
    /** The enum value: the active variant and the wrapped pool's state. */
    var pool: Dispatch.Pool<S, T, R, D>
    /** The wrapped implementations' operations. */
    const ops: Ops<S, T, R, D>
    /** The variant chosen at creation. */
    ghost const kind: Dispatch.PoolKind

    ghost predicate Valid()
      reads this
    {
      Dispatch.Variant(pool) == kind
    }

    constructor (initial: Dispatch.Pool<S, T, R, D>, ops: Ops<S, T, R, D>)
      ensures Valid() && pool == initial && this.ops == ops
      ensures kind == Dispatch.Variant(initial)
    {
      pool := initial;
      this.ops := ops;
      kind := Dispatch.Variant(initial);
    }

    method ModifyTotalFee(totalFee: u32) returns (r: Result<(), Abort>)
      requires Valid()
      modifies this
      ensures Valid()
      ensures var step := Dispatch.ModifyTotalFee(old(pool), ops, totalFee);
        if step.Ok? then pool == step.value && r == Ok(()) else pool == old(pool) && r == Err(step.error)
    {
      var step := Dispatch.ModifyTotalFee(pool, ops, totalFee);
      r := CommitUpdate(step);
    }

    /**
     * `add_liquidity`: `amountsOut` is the caller's vector after the call,
     * the amounts the pool kept when the deposit went through.
     */
    method AddLiquidity(senderId: AccountId, amounts: seq<Balance>, isView: bool)
      returns (r: Result<Balance, Abort>, amountsOut: seq<Balance>)
      requires Valid()
      modifies this
      ensures Valid()
      ensures r == Err(Unsupported) <==> kind != Dispatch.Simple
      ensures var step := Dispatch.AddLiquidity(old(pool), ops, senderId, amounts, isView);
        if step.Ok? then pool == step.value.0 && amountsOut == step.value.1.0 && r == Ok(step.value.1.1)
        else pool == old(pool) && amountsOut == amounts && r == Err(step.error)
    {
      var step := Dispatch.AddLiquidity(pool, ops, senderId, amounts, isView);
      if step.Ok? {
        pool := step.value.0;
        amountsOut := step.value.1.0;
        r := Ok(step.value.1.1);
      } else {
        amountsOut := amounts;
        r := Err(step.error);
      }
    }

    method AddStableLiquidity(senderId: AccountId, amounts: seq<Balance>, minShares: Balance, adminFee: AdminFees, isView: bool)
      returns (r: Result<Balance, Abort>)
      requires Valid()
      modifies this
      ensures Valid()
      ensures r == Err(Unsupported) <==> kind == Dispatch.Simple
      ensures var step := Dispatch.AddStableLiquidity(old(pool), ops, senderId, amounts, minShares, adminFee, isView);
        if step.Ok? then pool == step.value.0 && r == Ok(step.value.1) else pool == old(pool) && r == Err(step.error)
    {
      var step := Dispatch.AddStableLiquidity(pool, ops, senderId, amounts, minShares, adminFee, isView);
      r := Commit(step);
    }

    method RemoveLiquidity(senderId: AccountId, shares: Balance, minAmounts: seq<Balance>, isView: bool)
      returns (r: Result<seq<Balance>, Abort>)
      requires Valid()
      modifies this
      ensures Valid()
      ensures r != Err(Unsupported)
      ensures var step := Dispatch.RemoveLiquidity(old(pool), ops, senderId, shares, minAmounts, isView);
        if step.Ok? then pool == step.value.0 && r == Ok(step.value.1) else pool == old(pool) && r == Err(step.error)
    {
      var step := Dispatch.RemoveLiquidity(pool, ops, senderId, shares, minAmounts, isView);
      r := Commit(step);
    }

    method RemoveLiquidityByTokens(senderId: AccountId, amounts: seq<Balance>, maxBurnShares: Balance, adminFee: AdminFees, isView: bool)
      returns (r: Result<Balance, Abort>)
      requires Valid()
      modifies this
      ensures Valid()
      ensures r == Err(Unsupported) <==> kind == Dispatch.Simple
      ensures var step := Dispatch.RemoveLiquidityByTokens(old(pool), ops, senderId, amounts, maxBurnShares, adminFee, isView);
        if step.Ok? then pool == step.value.0 && r == Ok(step.value.1) else pool == old(pool) && r == Err(step.error)
    {
      var step := Dispatch.RemoveLiquidityByTokens(pool, ops, senderId, amounts, maxBurnShares, adminFee, isView);
      r := Commit(step);
    }

    method Swap(tokenIn: AccountId, amountIn: Balance, tokenOut: AccountId, minAmountOut: Balance, adminFee: AdminFees, isView: bool)
      returns (r: Result<Balance, Abort>)
      requires Valid()
      modifies this
      ensures Valid()
      ensures r != Err(Unsupported)
      ensures var step := Dispatch.Swap(old(pool), ops, tokenIn, amountIn, tokenOut, minAmountOut, adminFee, isView);
        if step.Ok? then pool == step.value.0 && r == Ok(step.value.1) else pool == old(pool) && r == Err(step.error)
    {
      var step := Dispatch.Swap(pool, ops, tokenIn, amountIn, tokenOut, minAmountOut, adminFee, isView);
      r := Commit(step);
    }

    method SwapByOutput(tokenIn: AccountId, amountOut: Balance, tokenOut: AccountId, maxAmountIn: Option<u128>, adminFee: AdminFees, isView: bool)
      returns (r: Result<Balance, Abort>)
      requires Valid()
      modifies this
      ensures Valid()
      ensures r == Err(Unsupported) <==> kind != Dispatch.Simple
      ensures var step := Dispatch.SwapByOutput(old(pool), ops, tokenIn, amountOut, tokenOut, maxAmountIn, adminFee, isView);
        if step.Ok? then pool == step.value.0 && r == Ok(step.value.1) else pool == old(pool) && r == Err(step.error)
    {
      var step := Dispatch.SwapByOutput(pool, ops, tokenIn, amountOut, tokenOut, maxAmountIn, adminFee, isView);
      r := Commit(step);
    }

    method ShareTransfer(senderId: AccountId, receiverId: AccountId, amount: u128) returns (r: Result<(), Abort>)
      requires Valid()
      modifies this
      ensures Valid()
      ensures r != Err(Unsupported)
      ensures var step := Dispatch.ShareTransfer(old(pool), ops, senderId, receiverId, amount);
        if step.Ok? then pool == step.value && r == Ok(()) else pool == old(pool) && r == Err(step.error)
    {
      var step := Dispatch.ShareTransfer(pool, ops, senderId, receiverId, amount);
      r := CommitUpdate(step);
    }

    method ShareRegister(accountId: AccountId) returns (r: Result<(), Abort>)
      requires Valid()
      modifies this
      ensures Valid()
      ensures r != Err(Unsupported)
      ensures var step := Dispatch.ShareRegister(old(pool), ops, accountId);
        if step.Ok? then pool == step.value && r == Ok(()) else pool == old(pool) && r == Err(step.error)
    {
      var step := Dispatch.ShareRegister(pool, ops, accountId);
      r := CommitUpdate(step);
    }

    method ShareUnregister(accountId: AccountId) returns (r: Result<(), Abort>)
      requires Valid()
      modifies this
      ensures Valid()
      ensures r != Err(Unsupported)
      ensures var step := Dispatch.ShareUnregister(old(pool), ops, accountId);
        if step.Ok? then pool == step.value && r == Ok(()) else pool == old(pool) && r == Err(step.error)
    {
      var step := Dispatch.ShareUnregister(pool, ops, accountId);
      r := CommitUpdate(step);
    }

    /** Stores the new pool of a call that went through and hands back its answer. */
    method Commit<V>(step: Result<(Dispatch.Pool<S, T, R, D>, V), Abort>) returns (r: Result<V, Abort>)
      requires Valid()
      requires step.Ok? ==> Dispatch.Variant(step.value.0) == kind
      modifies this
      ensures Valid()
      ensures step.Ok? ==> pool == step.value.0 && r == Ok(step.value.1)
      ensures step.Err? ==> pool == old(pool) && r == Err(step.error)
    {
      if step.Ok? {
        pool := step.value.0;
        r := Ok(step.value.1);
      } else {
        r := Err(step.error);
      }
    }

    /** As `Commit`, for a call that answers nothing but its new pool. */
    method CommitUpdate(step: Result<Dispatch.Pool<S, T, R, D>, Abort>) returns (r: Result<(), Abort>)
      requires Valid()
      requires step.Ok? ==> Dispatch.Variant(step.value) == kind
      modifies this
      ensures Valid()
      ensures step.Ok? ==> pool == step.value && r == Ok(())
      ensures step.Err? ==> pool == old(pool) && r == Err(step.error)
    {
      if step.Ok? {
        pool := step.value;
        r := Ok(());
      } else {
        r := Err(step.error);
      }
    }
  }
}
