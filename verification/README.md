# coinswap: address truncation and the ETH to WETH wrap form

coinswap is a browser front end that wraps ETH into WETH and swaps WETH for
ERC-20 tokens through a Uniswap pool. Most of it is rendering and calls into
MetaMask, ethers and the Uniswap SDK. Two parts have behaviour of their own,
and this project models them in Dafny:

- `format.dfy`, module `Format`: `truncateAddress`, which shortens a wallet
  address for display to its first six characters, `...` and its last four.
  JavaScript's `String.prototype.slice` is modelled with its negative-index
  rule (`SliceIndex`, `Slice`, `SliceFrom`), so `slice(-4)` means what it
  means in the source.
- `wrap_eth.dfy`, module `WrapEth`: the wrap form. This module has three parts:
  - the gas-fee selection as functions on the provider's fee data
    (`PriorityFee`, `MaxFee`, `EffectiveGasPrice`, `GasCostWei`). They follow
    JavaScript's `||`, which treats both `null` and `0n` as missing.
  - a specification of the form's five state variables (`FormState`) and of
    what each handler does to them (`AfterValueChange`, `AfterGasEstimation`,
    `AfterWrap`). The button's enabling rule is `WrapEnabled`. A run of user
    events is `Step`/`Run`. The invariant the handlers keep is `Consistent`:
    - no handler is left half-way;
    - a cost is on screen only for a positive amount;
    - a failed estimation never leaves a cost on screen.
  - the component itself as the class `WrapEthForm`. Its fields are the
    five `useState` variables. Its methods `HandleEthValueChange`,
    `FetchGasEstimation` and `HandleWrapEth` update them step by step, and
    each is proved to produce the state its specification function gives.

The wallet, the WETH contract and the JSON-RPC provider are parameters:
- an `EstimateReply` is the gas estimate and fee data, or a failure of
  either call;
- a `bool` is the outcome of the deposit transaction;
- a `nat` is the ETH balance in wei.

The amount field is an `Input`, which is one of:
- `Blank` for the empty string;
- `Malformed` for a string that `Number` reads as NaN;
- `Amount(wei)` for a number, counted in wei.

The estimate on screen is a `GasCostDisplay`: the literal `"0"` (`Cleared`)
or a computed cost in wei.

One behaviour of the source is stated as a lemma rather than changed. The
amount guard and the button's rule do not check the sign. A negative amount
is accepted, its estimate is cleared, and the wrap button is enabled
(`NegativeAmountEnablesWrap`). The deposit then goes to the wallet, whose
answer the model takes as a parameter.

## Model

| member | source | states |
|---|---|---|
| Format.TruncateAddress | src/utils/format.ts:1-6 | An input shorter than ten characters, the empty one included, comes back unchanged. Any other input becomes a 13-character string: the input's first six characters, then `...`, then its last four. |
| Format.TruncateIdempotent | src/utils/format.ts:4-5 | Truncating a truncated address gives the same string again. |
| Format.TruncateDeterminedByEnds | src/utils/format.ts:5 | For inputs of ten characters or more, two inputs truncate alike exactly when their first six and last four characters agree. The middle characters and the length do not matter. |
| Format.TruncateFixedPoints | src/utils/format.ts:4-5 | Truncation leaves an input unchanged exactly when the input is shorter than ten characters, or has thirteen characters with `...` at positions 6 to 8. |
| WrapEth.PriorityFee | src/components/wrap-eth/index.tsx:63 | A missing priority fee counts as 0. A reported one is used as it is. |
| WrapEth.MaxFee | src/components/wrap-eth/index.tsx:64-65 | The maximum fee is used when it is non-zero. Otherwise the gas price is used when reported, and otherwise 0. The result is 0 exactly when neither fee is truthy. |
| WrapEth.EffectiveGasPrice | src/components/wrap-eth/index.tsx:67-70 | The price is the larger of the maximum fee and the priority fee: at least both, and equal to one of them. |
| WrapEth.GasCostWei | src/components/wrap-eth/index.tsx:72 | The cost in wei is the larger of the two products gas times maximum fee and gas times priority fee. It is 0 exactly when the gas is 0 or both fees are 0. |
| WrapEth.NoFeesCostNothing | src/components/wrap-eth/index.tsx:63-72 | With no fee and no gas price reported, the cost is 0 whatever the gas estimate. |
| WrapEth.GasPriceOnlyAsFallback | src/components/wrap-eth/index.tsx:64-65 | When the maximum fee is non-zero, the gas price has no effect on the effective price. |
| WrapEth.Initial | src/components/wrap-eth/index.tsx:18-23 | The initial form is consistent, shows no error and no success, and its wrap button is disabled. |
| WrapEth.AfterValueChange | src/components/wrap-eth/index.tsx:30-40 | An amount above the balance only sets the error "Insufficient ETH balance". The amount, the estimate and everything else are unchanged, and nothing is estimated. Any other input becomes the amount, the balance error is not set, and the form is then what `AfterGasEstimation` gives for that input. |
| WrapEth.AfterGasEstimation | src/components/wrap-eth/index.tsx:42-81 | A blank or non-positive amount clears the error and resets the estimate to "0". A malformed amount or a failed provider call sets "Failed to estimate gas cost" and resets the estimate. A positive amount with a reply clears the error and shows the gas cost of that reply. A cost is shown exactly in that last case. |
| WrapEth.AfterWrap | src/components/wrap-eth/index.tsx:83-112 | `loading` is false afterwards either way. A success clears the error, sets `isSuccess`, resets the amount and the estimate to "0" and disables the button. A failure sets "Traction failed, Please try again!" and leaves the amount, the estimate and `isSuccess` as they were. |
| WrapEth.StepKeepsConsistent | src/components/wrap-eth/index.tsx:30-112 | Every handler, and a press on the disabled button, keeps the form consistent. |
| WrapEth.RunKeepsConsistent | src/components/wrap-eth/index.tsx:30-112 | Any sequence of edits and wrap presses keeps the form consistent. |
| WrapEth.WrapResetsForm | src/components/wrap-eth/index.tsx:83-112 | After any history, a successful wrap from an enabled button leaves a consistent, reset form: success shown, no error, amount and estimate "0". |
| WrapEth.NegativeAmountEnablesWrap | src/components/wrap-eth/index.tsx:33-49 | From any idle form, any negative amount passes the balance guard, becomes the amount, gets its estimate cleared with no error, and enables the wrap button. |
| WrapEth.WrapEthForm.constructor | src/components/wrap-eth/index.tsx:18-23 | The fields start at the initial form. |
| WrapEth.WrapEthForm.HandleEthValueChange | src/components/wrap-eth/index.tsx:30-40 | The new state is `AfterValueChange` of the old one, and a consistent form stays consistent. |
| WrapEth.WrapEthForm.FetchGasEstimation | src/components/wrap-eth/index.tsx:42-81 | The new state is `AfterGasEstimation` of the old one. The fee selection is done inline, and the proof shows it agrees with `GasCostWei`. |
| WrapEth.WrapEthForm.HandleWrapEth | src/components/wrap-eth/index.tsx:83-112 | The new state is `AfterWrap` of the old one, and a consistent form stays consistent. |
| WrapEth.WrapEthForm.CanWrap | src/components/wrap-eth/index.tsx:159 | Following how JavaScript evaluates the `disabled` expression (`loading`, or `Number(ethValueToWrap)` falsy), the button is disabled exactly when the form is loading or the amount is empty, NaN or zero. |

## Left out

- Number conversions are floating point and are not modelled: `Number(value)` and `Number(ethBalance)` in the balance guard, and `Number(...) <= 0`. The model compares whole wei. Rounding in the 4-decimal balance text and precision loss in large amounts are not captured.
- The display conversion of the cost, `Number(ethers.formatEther(...)).toFixed(8)`, is floating-point formatting. The model stops at the wei value (`Cost(wei)`).
- Some strings `Number` accepts are rejected by `ethers.parseEther`, such as exponent notation. They are not modelled: `Malformed` covers only strings that read as NaN.
- The `setTimeout` that clears `isSuccess` after three seconds is timing. It is not modelled, so `isSuccess` stays set after a success.
- `fetchGasEstimation` is not awaited by `handleEthValueChange`, so two estimations could finish out of order. The model runs each handler to completion before the next event. `Consistent`, and with it `RunKeepsConsistent`, holds only under that assumption. In the program, an estimation started for a positive amount can finish after the field was changed to "0". It then shows a cost beside a zero amount.
- `refetchBalances`, the signer, the WETH contract, `console` output and all rendering are left out. Their effects are the parameters named above.
- JavaScript strings are UTF-16 code units and Dafny strings are sequences of `char`. The truncation model treats each character as one unit.
- src/utils/quote.ts, src/utils/calculations.ts, the swap form, the wallet context and the balance hook are not part of this model. They delegate to the Uniswap SDK and to RPC calls, or compute in floating point.
