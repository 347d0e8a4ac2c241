# Solana pool and bundle tool: a Dafny model of its decision core

The tool creates tokens, markets and liquidity pools on a constant-product AMM. It also sends
dependent transactions as one all-or-nothing bundle through a block-engine relay. Most of its
code is glue around the RPC node, the relay client and the AMM SDK. This project models the
decision and arithmetic logic inside that glue. Every remote call is an input value:
`Call<T>` (rejected or resolved) or an `Option`. The SDK's quote is a function parameter.

- `AmmMath` (`amm_math.dfy`) covers the helpers of `src/utils.ts`:
  - the constant-product output `calculateOutputAmount`, on naturals;
  - `getSlippage`, with the number given as an exact decimal `units / 10^scale`;
  - `calcNonDecimalValue` and `calcDecimalValue`, on reals.
- `ReserveProjection` (`reserve_projection.dfy`) covers `buySellWithBundle`:
  - the table that chooses the fixed side;
  - how each leg's amounts are set up;
  - the `PoolInfo` record, a class whose two reserve fields are overwritten after each leg;
  - the two-leg method that builds the bundle's transactions.
- `BundleSubmit` (`bundle_submit.dfy`) covers `sendBundle`:
  - preparation;
  - submission with one retry;
  - the acceptance wait, a loop of at most 100 ticks over a given sequence of flags;
  - the explorer lookup with one retry;
  - the classification into landed, ambiguous or failed.
- `CreateAndBuyFlow` (`create_and_buy.dfy`) covers `createAndBuy`:
  - the prechecks, in the source's order, with its messages;
  - the buyer's missing token accounts;
  - the one resend of the whole bundle;
  - the mapping of the bundle outcome.
- `RevokeAuthority` (`revoke_authority.dfy`) covers the instruction list of `revokeAuthority`.
- `Wrappers` and `Types` hold `Option`, `Result`, `Call`, the `'base' | 'quote'` union and `BundleRes`.

Behaviour of the code to note:
- A bundle counts as landed when the explorer record has any `transactions` and a truthy `status`. The code does not compare the number of signatures with the number of transactions sent.
- The relay's acceptance notification only ends the wait early. Only the explorer lookup can make a bundle landed.
- `createAndBuy` resends the bundle only when `sendBundle` rejected or returned a string error. It never resends when the outcome is ambiguous.
- The bundle is always built with a limit of one more than its transactions, so the "too large" error cannot happen (`BundleSubmit.TipAlwaysFits`).
- Nothing stops the reserve projection from going negative. The model makes that a precondition (`CanApply`, `Feasible`) rather than an error the code raises.
- Neither bundle flow (`buySellWithBundle`, `createAndBuy`) adds a compute-unit price instruction. Of the modelled functions, only `revokeAuthority` does (src/txHandler.ts:642).

## Model

| member | source | states |
|---|---|---|
| AmmMath.CalculateOutputAmount | src/utils.ts:103-107 | The result is the floor of `outR*in / (inR+in)`: `r*(inR+in) <= outR*in < (r+1)*(inR+in)`. There is no result (JavaScript's NaN) exactly when `inR+in == 0`. A zero input gives 0. |
| AmmMath.OutputBelowReserve | src/utils.ts:103-107 | With both reserves positive, the output is strictly below the output reserve. |
| AmmMath.OutputMonotone | src/utils.ts:103-107 | A larger input never gives a smaller output. |
| AmmMath.ConstantProductNonDecreasing | src/utils.ts:103-107 | `(inR+in)*(outR-out) >= inR*outR`. |
| AmmMath.Normalise | src/utils.ts:35 | The shortest decimal form of a number (what `toString` prints) has no trailing zero, has the same value, and is no longer. |
| AmmMath.CanonicalUnique | src/utils.ts:35 | Two shortest forms of the same value are identical, so the fraction-digit count is well defined. |
| AmmMath.FractionDigitsOfValue | src/utils.ts:35 | Equal values have the same shortest form, however they are written. |
| AmmMath.GetSlippage | src/utils.ts:32-44 | With k fraction digits, the numerator is `value*10^k` and the denominator is `10^k*100`, so the fraction equals value/100. The denominator is always a positive multiple of 100. A missing value gives 0/100. |
| AmmMath.SlippageDependsOnValue | src/utils.ts:32-44 | Two writings of the same number give the same slippage. |
| AmmMath.CalcNonDecimalValue | src/utils.ts:9-11 | The result is `value*10^decimals` truncated toward zero, for both signs. |
| AmmMath.CalcDecimalValue | src/utils.ts:13-15 | The result times `10^decimals` is the input. |
| AmmMath.NonDecimalOfDecimal | src/utils.ts:9-15 | Scaling a raw integer down and back up gives it back. |
| AmmMath.DecimalComparisonExact | src/utils.ts:13-15 | Comparing two raw amounts after scaling both down is comparing them raw. |
| ReserveProjection.FixedSide | src/txHandler.ts:286-302 | The input side is fixed exactly when the amount's token is the one spent. The output side is fixed exactly when it is the one bought. So the fixed amount always belongs to the amount's token. |
| ReserveProjection.QuoteLeg | src/txHandler.ts:305-329 | The fixed token and amount are the user's. The exact amount goes into both the instruction and the projection. On the other side, the quote's slippage bound goes into the instruction and its expected amount into the projection. |
| ReserveProjection.Project | src/txHandler.ts:350-392 | The input reserve gains the expected input and the output reserve loses the expected output. LP supply and all decimals are unchanged. |
| ReserveProjection.ProjectionKeepsConstantProduct | src/txHandler.ts:350-392 | If a leg takes out no more than the fee-free constant-product output, its projection is defined, never lowers the reserve product, and keeps a non-empty output reserve non-empty. |
| ReserveProjection.PreInstructions | src/txHandler.ts:266-272 | There is one account-creation instruction per missing account of the user, base before quote, and nothing else. A creation appears for a mint exactly when its account is missing. |
| ReserveProjection.SecondLegReversesFirst | src/txHandler.ts:396-427 | The second leg buys what the first spent, is quoted on the reserves the first left, and fixes the opposite side. Both legs fix the same amount of the same token. |
| ReserveProjection.BundleRestoresFixedReserve | src/txHandler.ts:350-515 | After both projections, the reserve of the amount's token is back where it started. The other reserve has lost the fixed-input leg's output and gained the fixed-output leg's input. |
| ReserveProjection.AccountCreationOnlyInFirstTransaction | src/txHandler.ts:343-466 | There are two transactions. Account creation appears only in the first and only for missing accounts. The first ends with its swap, and the second has no account creation. |
| ReserveProjection.PoolInfo.constructor | src/txHandler.ts:256-265 | The record holds the fetched reserves, LP supply and decimals. |
| ReserveProjection.PoolInfo.ApplyLeg | src/txHandler.ts:350-392 | The record's new state is the projection of its old state by the leg. |
| ReserveProjection.BuildLeg | src/txHandler.ts:274-393 | The leg is quoted on the record's current state. The transaction is the given pre-instructions followed by the leg's swap. The record moves to the projection. |
| ReserveProjection.BuySellWithBundle | src/txHandler.ts:234-516 | The transactions are the planned pair: pre-instructions and the first swap, then the second swap quoted on the projected pool. The record ends at the pool projected past both legs. |
| ReserveProjection.SecondLegSeesFirstLegExample | src/txHandler.ts:426-427 | Example on 1,000,000 base and 2,000,000 quote: the second leg needs 50 base on the projected reserves, where the fetched ones would need 51. |
| BundleSubmit.AddTipTx | src/txHandler.ts:927-936 | The tip transaction is added exactly when the bundle then fits its limit. |
| BundleSubmit.TipAlwaysFits | src/txHandler.ts:927-936 | With the limit the source passes, the tip always fits, so the error branch cannot be reached. |
| BundleSubmit.BundleIdOf | src/txHandler.ts:949-958 | An id is truthy. A truthy first answer is always used. A rejected first submission is retried, and a truthy id from the retry is used. An id comes from the retry only when the first submission rejected. |
| BundleSubmit.LookupWithRetry | src/txHandler.ts:967-974 | A record from the first lookup is used as is. When the first lookup finds nothing, the second lookup's answer is used. |
| BundleSubmit.Classify | src/txHandler.ts:975-992 | The bundle is landed exactly when the record has `transactions` and a truthy `status`, and then it carries exactly those. Otherwise it is ambiguous with the bundle id. |
| BundleSubmit.SendBundleOutcome | src/txHandler.ts:913-993 | Missing tip accounts or a falsy leader slot give the preparation failure. A rejected block-hash fetch rejects. No id gives the submission failure. Once the relay returned an id, the outcome is the classification of the record the lookups found, so it keeps that id and is never a failure. A landed outcome carries what the explorer returned. |
| BundleSubmit.PollAcceptance | src/txHandler.ts:960-965 | The wait lasts at most 100 ticks. It stops at the first tick whose flag is set, and no earlier tick had the flag. |
| BundleSubmit.Submissions | src/txHandler.ts:917-955 | No submission is made unless the tip accounts, a truthy leader slot and the block hash were obtained. After that there is one submission, or two exactly when the first rejected. |
| BundleSubmit.SendBundle | src/txHandler.ts:913-993 | The outcome is `SendBundleOutcome`. Nothing is submitted, awaited or looked up unless the preparation and the block-hash fetch succeed. After that, a rejected first submission is retried, for two submissions; otherwise there is one. Once there is an id, the wait stops at the first tick that sees the acceptance flag, or after 100 ticks. The explorer is then asked twice exactly when the first lookup found nothing. Without an id there is no wait and no lookup. |
| BundleSubmit.LandsOnSecondLookup | src/txHandler.ts:967-992 | The flag never comes and only the second lookup finds the record: the bundle is landed with that record's signatures. |
| BundleSubmit.FoundRecordLands | src/txHandler.ts:967-991 | Once the relay gave an id, a record with signatures and a truthy status from the lookups makes the bundle landed with exactly those. |
| BundleSubmit.NothingFoundIsAmbiguous | src/txHandler.ts:967-984 | Neither lookup finds anything: the outcome is ambiguous with the relay's id. |
| CreateAndBuyFlow.CreatePoolSolFund | src/txHandler.ts:720-728 | The creator's SOL funding is the seed amount of the wrapped-SOL side, base first, and 0 when neither side is wrapped SOL. |
| CreateAndBuyFlow.BuyAccounts | src/txHandler.ts:754-755 | Both token accounts of the buy are the buyer's: the paid mint's and the bought mint's. |
| CreateAndBuyFlow.BuyAccountsAsWritten | src/txHandler.ts:786-787 | The accounts as written: for the paid and the bought mint, owned by the buyer when base is bought but by the pool creator when quote is bought. |
| CreateAndBuyFlow.AsWrittenQuoteBranchUsesCreator | src/txHandler.ts:786-787 | The as-written accounts match the buyer's on the base branch. On the quote branch they are the creator's and differ from the buyer's. |
| CreateAndBuyFlow.AsWrittenRejectsFundedBuyer | src/txHandler.ts:786-810 | Market TOKEN/wrapped SOL. The creator seeds the pool with 2 SOL (`CreatePoolSolFund`), has 3 SOL, and has 200 TOKEN left. The buyer holds 1000 TOKEN and pays 500. As written, the precheck reads the creator's 200 and rejects the buyer as short of funds. With the buyer's account it passes. |
| CreateAndBuyFlow.FundsCheck | src/txHandler.ts:764-780 | The check passes exactly when the creator exists with at least the SOL funding, the buyer exists, and the buyer can pay: lamports if the paid mint is wrapped SOL, otherwise an existing paying account with enough tokens. Each failing condition gives its own message, in source order. |
| CreateAndBuyFlow.Prepare | src/txHandler.ts:700-849 | The rejections come in the source's order: same wallets, a missing market, a pool not prepared, a failed account fetch, the funds check's message, the buy not built, a missing block hash. A request that passes every check is accepted. A prepared buy pays the quote's bound for the exact output, uses the buyer's token accounts, and the creator can fund the pool and the buyer can pay. On the quote branch this is the corrected behaviour (src/txHandler.ts:786-787; see ## Findings). |
| CreateAndBuyFlow.MapBundleResult | src/txHandler.ts:879-909 | Success happens exactly when the bundle landed with both of its first two signatures truthy, and carries them. A string error passes through unchanged. Every other outcome that has a bundle id keeps it with the pool id. A rejection becomes "Failed to send the bundle". |
| CreateAndBuyFlow.CreateAndBuyOutcome | src/txHandler.ts:866-909 | A precheck failure is returned as is. Otherwise the first send's outcome is mapped, unless it rejected or failed, in which case the resend's outcome is mapped. Success and an unconfirmed result carry the new pool's id. A bundle whose first send got an id ends in success or unconfirmed. |
| CreateAndBuyFlow.PreBuyInstructions | src/txHandler.ts:781-782 | The list is exactly one creation per missing account: the paying account first, then the receiving one. Each is paid for and owned by the buyer. On the quote branch this is the corrected behaviour (src/txHandler.ts:786-787; see ## Findings). |
| CreateAndBuyFlow.CreateAndBuy | src/txHandler.ts:694-910 | The result is `CreateAndBuyOutcome`. Nothing is built or sent unless every precheck passed. The bundle is sent twice exactly when the prechecks pass and the first send rejected or failed. The relay submissions are those of the sends made, each counted as in `sendBundle`. The buy transaction is exactly the creations of the buyer's missing accounts, paying account first, followed by the fixed-output buy. On the quote branch this is the corrected behaviour (src/txHandler.ts:786-787; see ## Findings). |
| CreateAndBuyFlow.FirstBundleTakenDecides | src/txHandler.ts:866-878 | Once the first send got a bundle id, the relay's behaviour on a resend cannot change the result. |
| RevokeAuthority.CheckMinting | src/txHandler.ts:645-653 | The minting revocation is appended exactly when the user holds the minting authority. Otherwise one note is appended: already revoked when the option is 0, else not the user's. |
| RevokeAuthority.CheckFreezing | src/txHandler.ts:654-662 | The same for the freezing authority. |
| RevokeAuthority.CheckMetadata | src/txHandler.ts:663-672 | The metadata revocation is appended exactly when the user is the update authority of mutable metadata. Otherwise one note is appended: already revoked when the metadata is immutable, else not the user's. |
| RevokeAuthority.AssembledListFacts | src/txHandler.ts:642-667 | In the assembled list, the price comes first. Each revocation is present exactly when its authority is held, in mint-freeze-metadata order, and the length counts them. |
| RevokeAuthority.AssembledNotesFacts | src/txHandler.ts:645-672 | Each authority the user does not hold has its note. Notes and revocations together number one per check made. |
| RevokeAuthority.RevokeInstructions | src/txHandler.ts:637-667 | A missing mint account gives no list. Otherwise the list starts with the 400,000 micro-lamport compute price, so it is never empty. A mint, freeze or metadata revocation is present exactly when the user holds that authority (for metadata, metadata that is still mutable), in that order. Each authority not revoked is reported as already revoked or not the user's. The notes come in the order of the checks: minting, freezing, then metadata. |

## Left out

- All network I/O is left out: the RPC node, the relay client and the explorer request. Only their results are inputs. The random pick of a tip account is not modelled, and the empty tip-account list it would index is not treated specially.
- The SDK's `computeAmountOut`/`computeAmountIn` are a parameter (`Quoter`), because their fee formula is not in this code. `FeeFreeQuote` is used only for the worked example.
- Building, signing and serialising transactions and bundles are library calls and are left out. Instructions are reduced to what the decisions fix.
- The relay's acceptance callback races the wait loop. It is modelled as a given sequence of per-tick flags. Sleeps and timeouts are left out.
- JavaScript `Number` floating point is modelled with exact integers and reals: the `Number(...)` round trips in the projection, the `calcDecimalValue` comparison and the products in `calculateOutputAmount`. So is the 64-bit big-endian encoding of the new reserves.
- ReserveProjection.QuoteLeg: the user's amount is taken in raw units. The decimal-to-raw conversion of `TokenAmount` belongs to the SDK.
- ReserveProjection.BuySellWithBundle: the pool keys and the pool's accounts are taken as fetched. So the `"Pool info not found"` error (src/txHandler.ts:241) and the `"Failed to fetch some data"` throw (src/txHandler.ts:252) are not modelled. Nor are the throws when `buyFromPool` or the block-hash fetch fails. The final hand-off (two raw sends on devnet, `sendBundle` otherwise, src/txHandler.ts:518-538) is not part of this model.
- AmmMath.GetSlippage: the input is an exact decimal. So JavaScript's exponent notation in `toString` (for very small or very large numbers) is not modelled. Nor is the floating-point product at src/utils.ts:37, where `1.1 * 10` is `11.000000000000002`, not 11. The `"failed to parse slippage input"` throw (src/utils.ts:41-43) is not modelled. Whether the SDK's `Percent` can throw is not shown by this code.
- AmmMath.CalcNonDecimalValue: the product before truncation (src/utils.ts:10) is exact here. In floating point, `0.29 * 100` is `28.999999999999996`, which truncates to 28, not 29.
- CreateAndBuyFlow.FundsCheck: amounts are exact naturals. The source converts the paid amount with bn.js `toNumber()` (src/txHandler.ts:772, 777, 804, 809), which throws once the amount needs more than 53 bits. So a paid amount of 2^53 raw units or more makes `createAndBuy` reject, with no message, where the model compares. With 9 decimals that is about 9 million tokens. The `Number(...)` rounding of the token balance (src/txHandler.ts:776, 808) is not modelled either.
- CreateAndBuyFlow.Prepare: for the same reason, its acceptance clause also covers paid amounts of 2^53 raw units or more, which the source rejects by throwing.
- CreateAndBuyFlow.CreateAndBuy: `BuyRequest` takes the buy amount in raw units. The decimal-to-raw conversion of the `TokenAmount` built from `buyAmount` (src/txHandler.ts:752, 784) belongs to the SDK and is not modelled. Calls retried after a delay (account fetch, block hashes) are given by their result after the retry. `getPoolKeys`, which is not caught, is taken to succeed.
- RevokeAuthority.RevokeInstructions: sending the transaction and logging its signature (src/txHandler.ts:672-688) are I/O. The unreachable "All authority are revoked" branch is covered by the list never being empty.
- The other commands (`createToken`, `createMarket`, `createPool`, `addLiquidity`, `removeLiquidity`, `swap`, `unwrapSol`, `mintTo`), the command-line interface and the environment loading are not part of this model.

## Findings

| source | as written | input that shows it | evidently intended | confidence | as-written member | corrected member |
|---|---|---|---|---|---|---|
| src/txHandler.ts:786-787 | When the quote token is bought, the paying and receiving token accounts are derived for the pool creator, not the buyer. The balance precheck reads the creator's account, and the buy uses the creator's accounts while the buyer signs. | Market TOKEN/wrapped SOL, with the pool seeded with 2 SOL by a creator holding 3 SOL and 200 TOKEN. The buyer holds 1000 TOKEN and 500 TOKEN are needed: rejected with "Buyer dosen't have enought fund to buy another token". | Derive both accounts for the buyer, as the base branch does (src/txHandler.ts:754-755). | not executed | CreateAndBuyFlow.BuyAccountsAsWritten, CreateAndBuyFlow.AsWrittenRejectsFundedBuyer | CreateAndBuyFlow.BuyAccounts, CreateAndBuyFlow.Prepare |
