# Pool dispatcher of the Ref exchange

A model of `Pool`, the dispatcher of the Ref exchange's automated market
maker. `Pool` is a closed tagged union over four pool implementations: the
constant-product `SimplePool`, the stableswap `StableSwapPool`, the
rate-adjusted `RatedSwapPool` and the risk-capped `DegenSwapPool`. Every public
method matches on the active variant. It then either forwards to that variant's
own method or aborts with `unimplemented!()`. The last method,
`assert_tvl_not_exceed_limit`, checks a degen pool's total value locked (TVL)
against a per-pool limit.

Files:

- `types.dfy` (`PoolTypes`): fixed-width integers as subsets of `nat`, account
  ids, `Result`, and `Abort`. In `Abort`, `Unsupported` is `unimplemented!()`
  and `Panic(message)` is a failed assertion.
- `inner_pools.dfy` (`InnerPools`): the interfaces of the four wrapped
  implementations. Each is a record of functions over the implementation's own
  state type. Their code is not part of this model, so every result below holds
  whatever those functions do.
- `pool.dfy` (`PoolDispatch`): the `Pool` datatype and one function per
  method. `&self` methods answer a value. `&mut self` methods answer the updated
  pool together with their value.
- `capabilities.dfy` (`PoolCapabilities`): the whole call surface as one
  `Call` datatype, and `Invoke`, which performs one call. `Supported` is an
  independent table of which variant offers which operation. `Run` performs a
  history of calls, each as its own transaction: a call that aborts leaves the
  pool as it was.
- `pool_cell.dfy` (`PoolObject`): `PoolCell`, the pool as the contract
  stores it. Its `&mut self` methods update the wrapped pool in place and keep
  the variant chosen at creation.

## Model

| member | source | states |
|---|---|---|
| `PoolDispatch.Kind` | ref-exchange/src/pool.rs:23-30 | "SIMPLE_POOL" exactly on the simple pool, "STABLE_SWAP" exactly on the stableswap pool, "RATED_SWAP" exactly on the rated pool, "DEGEN_SWAP" exactly on the degen pool |
| `PoolDispatch.KindIdentifiesVariant` | ref-exchange/src/pool.rs:23-30 | two pools have the same tag exactly when they have the same variant: the tag depends on the variant alone, and the four tags are distinct |
| `PoolDispatch.Tokens` | ref-exchange/src/pool.rs:33-40 | on each variant, the token list is that pool's own `tokens` |
| `PoolDispatch.GetFee` | ref-exchange/src/pool.rs:139-146 | on each variant, the fee is that pool's own `get_fee` |
| `PoolDispatch.GetVolumes` | ref-exchange/src/pool.rs:148-156 | on each variant, the volumes are that pool's own `get_volumes` |
| `PoolDispatch.ShareTotalBalance` | ref-exchange/src/pool.rs:232-239 | on each variant, the total share supply is that pool's own `share_total_balance` |
| `PoolDispatch.ShareBalances` | ref-exchange/src/pool.rs:241-248 | on each variant, an account's shares are that pool's own `share_balance_of` for the same account |
| `PoolDispatch.ShareHasRegistered` | ref-exchange/src/pool.rs:259-267 | on each variant, registration is that pool's own `share_has_registered` for the same account |
| `PoolDispatch.GetShareDecimal` | ref-exchange/src/pool.rs:129-136 | shares have 18 decimals exactly on the stableswap pool and 24 on the other three |
| `PoolDispatch.ModifyTotalFee` | ref-exchange/src/pool.rs:42-49 | offered by every variant with the variant preserved; on each variant the result is that pool's own `modify_total_fee`, its new state put back in the same variant (a panic in it aborts with the same message) |
| `PoolDispatch.AddLiquidity` | ref-exchange/src/pool.rs:53-65 | unsupported exactly when the pool is not the simple pool; on the simple pool it goes through exactly when the wrapped `add_liquidity` does, answering its new state as a simple pool, the amounts it kept and the shares it minted, and otherwise aborts with its panic message |
| `PoolDispatch.AddStableLiquidity` | ref-exchange/src/pool.rs:67-81 | unsupported exactly on the simple pool; the variant is preserved; on the stable, rated and degen pools the result is that pool's own fee-aware `add_liquidity` with the same arguments |
| `PoolDispatch.RemoveLiquidity` | ref-exchange/src/pool.rs:84-103 | offered by every variant with the variant preserved; routed to the simple pool's `remove_liquidity` and to `remove_liquidity_by_shares` on the other three |
| `PoolDispatch.RemoveLiquidityByTokens` | ref-exchange/src/pool.rs:106-126 | unsupported exactly on the simple pool; the variant is preserved; on the other three the result is that pool's own `remove_liquidity_by_tokens` with the same arguments |
| `PoolDispatch.GetSharePrice` | ref-exchange/src/pool.rs:159-166 | unsupported exactly on the simple pool; on the other three the answer is that pool's own `get_share_price` |
| `PoolDispatch.GetTvl` | ref-exchange/src/pool.rs:168-178 | unsupported exactly on non-degen pools; a TVL is reported only after `assert_degens_valid` passes, and it is the degen pool's own `get_tvl`; once validation passes the answer is exactly what `get_tvl` answers, and a failed validation aborts with its message |
| `PoolDispatch.Swap` | ref-exchange/src/pool.rs:181-204 | offered by every variant with the variant preserved; on each variant the result is that pool's own `swap` with the same arguments |
| `PoolDispatch.SwapByOutput` | ref-exchange/src/pool.rs:207-230 | unsupported exactly when the pool is not the simple pool; a swap that goes through leaves a simple pool; on the simple pool the result is its `swap_by_output` with the same arguments |
| `PoolDispatch.ShareTransfer` | ref-exchange/src/pool.rs:250-257 | offered by every variant with the variant preserved; on each variant the result is that pool's own `share_transfer` from `sender_id` to `receiver_id` |
| `PoolDispatch.ShareRegister` | ref-exchange/src/pool.rs:269-276 | offered by every variant with the variant preserved; on each variant the result is that pool's own `share_register` |
| `PoolDispatch.ShareUnregister` | ref-exchange/src/pool.rs:278-285 | offered by every variant with the variant preserved; on each variant the result is that pool's own `share_unregister` |
| `PoolDispatch.PredictAddRatedLiquidity` | ref-exchange/src/pool.rs:287-299 | unsupported exactly on non-rated pools; on the rated pool the answer is its own `predict_add_rated_liquidity` with the same arguments |
| `PoolDispatch.PredictAddDegenLiquidity` | ref-exchange/src/pool.rs:301-313 | unsupported exactly on non-degen pools; on the degen pool the answer is its own `predict_add_degen_liquidity` with the same arguments |
| `PoolDispatch.PredictRemoveRatedLiquidityByTokens` | ref-exchange/src/pool.rs:315-327 | unsupported exactly on non-rated pools; on the rated pool the answer is its own `predict_remove_rated_liquidity_by_tokens` with the same arguments |
| `PoolDispatch.PredictRemoveDegenLiquidityByTokens` | ref-exchange/src/pool.rs:329-341 | unsupported exactly on non-degen pools; on the degen pool the answer is its own `predict_remove_degen_liquidity_by_tokens` with the same arguments |
| `PoolDispatch.GetRatedReturn` | ref-exchange/src/pool.rs:343-357 | unsupported exactly on non-rated pools; on the rated pool the answer is its own `get_rated_return` with the same arguments |
| `PoolDispatch.GetDegenReturn` | ref-exchange/src/pool.rs:359-373 | unsupported exactly on non-degen pools; on the degen pool the answer is its own `get_degen_return` with the same arguments |
| `PoolDispatch.AssertTvlNotExceedLimit` | ref-exchange/src/pool.rs:377-386 | never unsupported; passes on every non-degen pool and on a degen pool with no limit for `pool_id`; otherwise passes exactly when the wrapped `get_tvl` answers and TVL <= limit (so it passes at equality); a panicking `get_tvl` fails it with that panic, and a TVL above the limit fails it with "Exceed Max TVL" |
| `PoolDispatch.TvlCheckAgreesWithGetTvl` | ref-exchange/src/pool.rs:377-386 | wherever `get_tvl` answers, the check fails exactly when a limit is configured and that TVL exceeds it |
| `PoolDispatch.TvlCheckSkipsDegensValidation` | ref-exchange/src/pool.rs:379-382 | the check reads the wrapped pool's `get_tvl` directly, so a degen pool whose risk factors fail `assert_degens_valid` (where `Pool::get_tvl` panics) can still pass it whenever no limit is configured or the wrapped `get_tvl` answers within the limit |
| `PoolCapabilities.CapabilityMatrix` | ref-exchange/src/pool.rs:53-373 | for every pool and every call: the call is unsupported exactly when the `Supported` table says the active variant lacks it |
| `PoolCapabilities.InvokePreservesVariant` | ref-exchange/src/pool.rs:42-285 | no call changes the active variant |
| `PoolCapabilities.QueriesLeavePoolUnchanged` | ref-exchange/src/pool.rs:287-373 | the `&self` calls (kind, tokens, getters, quotes, TVL check) leave the pool as it was |
| `PoolCapabilities.ExactlyOneDepositOperation` | ref-exchange/src/pool.rs:53-81 | on every pool, exactly one of `add_liquidity` and `add_stable_liquidity` is unsupported |
| `PoolCapabilities.RunPreservesVariant` | ref-exchange/src/pool.rs:14-19 | the variant is fixed at creation: no history of calls changes it |
| `PoolCapabilities.QueryHistoryLeavesPoolUnchanged` | ref-exchange/src/pool.rs:287-373 | a history made only of `&self` calls leaves the pool unchanged |
| `PoolCapabilities.CapabilitiesNeverChange` | ref-exchange/src/pool.rs:53-373 | after any history, a call is unsupported exactly when it was unsupported on the pool as created |
| `PoolCapabilities.TvlCheckNeverFailsOffDegen` | ref-exchange/src/pool.rs:384 | after any history, the TVL check passes on a pool created with a variant other than degen |
| `PoolObject.PoolCell.constructor` | ref-exchange/src/pool.rs:14-19 | the cell holds the given pool and records its variant |
| `PoolObject.PoolCell.ModifyTotalFee` | ref-exchange/src/pool.rs:42-49 | updates the wrapped pool in place, or leaves it as it was when the call aborts; keeps the variant |
| `PoolObject.PoolCell.AddLiquidity` | ref-exchange/src/pool.rs:53-65 | as above; unsupported exactly on variants other than simple; the caller's amounts become the amounts kept |
| `PoolObject.PoolCell.AddStableLiquidity` | ref-exchange/src/pool.rs:67-81 | as above; unsupported exactly on the simple pool |
| `PoolObject.PoolCell.RemoveLiquidity` | ref-exchange/src/pool.rs:84-103 | as above; never unsupported |
| `PoolObject.PoolCell.RemoveLiquidityByTokens` | ref-exchange/src/pool.rs:106-126 | as above; unsupported exactly on the simple pool |
| `PoolObject.PoolCell.Swap` | ref-exchange/src/pool.rs:181-204 | as above; never unsupported |
| `PoolObject.PoolCell.SwapByOutput` | ref-exchange/src/pool.rs:207-230 | as above; unsupported exactly on variants other than simple |
| `PoolObject.PoolCell.ShareTransfer` | ref-exchange/src/pool.rs:250-257 | as above; never unsupported |
| `PoolObject.PoolCell.ShareRegister` | ref-exchange/src/pool.rs:269-276 | as above; never unsupported |
| `PoolObject.PoolCell.ShareUnregister` | ref-exchange/src/pool.rs:278-285 | as above; never unsupported |

## Left out

- The wrapped pools' code is not part of this model: `simple_pool.rs`, `stable_swap`, `rated_swap` and `degen_swap`. That covers the constant-product and stableswap math, fee splitting, share minting and burning, the share ledger, slippage checks and `assert_degens_valid`. Their operations are parameters (`InnerPools.Ops`), and their own error kinds (slippage, insufficient shares, unregistered account, fee too high) reach the dispatcher as `Panic(message)`.
- `crate::read_pool_limit_from_storage()` reads global contract storage. The model takes the limits as the parameter `limits: map<u64, DegenPoolLimit>`, where each entry is already the result of `get_degen_pool_limit()`.
- Borsh serialisation of the enum is storage encoding done by a library, so it is not modelled.
- `AdminFees` and `SwapVolume` are passed through unread. Their fields here are placeholders for the types defined elsewhere.
- `is_view` is forwarded unchanged. What it selects lives in the wrapped pools.
- `add_liquidity` rewrites the caller's `&mut Vec<Balance>`. The model returns the rewritten vector as a value (`amountsOut`) instead of sharing a buffer with the caller.
- The dispatcher does no arithmetic of its own. u128/u32/u8 results are typed as subsets of `nat`, and overflow inside the wrapped pools is theirs.
- Calling `assert_tvl_not_exceed_limit` after deposits, and reverting the deposit when it fails, is done by the contract's entry points. Those are not part of this model. `Run` models only the revert of a call that aborts.
