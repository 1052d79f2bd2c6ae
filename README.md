# Arbitrage decision logic of the xstable bot

The bot watches new blocks and, for each configured token pair, looks for a
round trip that returns more of the pair's first token than it costs. The
capital ladder has four tiers: 1000, 10 000, 100 000 and 1 000 000 whole
units of the second token. For every tier the bot:

- prices buying the tier's amount of token2 on one venue;
- prices selling the same amount back on another venue;
- asks its on-chain executor for a flashloan when the second leg returns
  strictly more than the first leg costs plus the configured profit
  threshold.

This project models the three files of that decision logic:

- **Router scan** (`arb-js/src/arb/unirouter.js`, `UniRouterArb`). It buys
  on the first Uniswap-style router and sells on the second.
- **Uniswap-vs-Balancer draft** (`arb-js/src/arb/unibal.js`, `UniBalArb`).
  It buys on Uniswap and sells through the Balancer order router. Between
  calls it keeps the current pair's token decimals in its closure.
- **Bot object** (`arb-js/src/arb/index.js`, `Arb`). It:
  - creates the executor contract lazily, once;
  - builds the router scan over it;
  - on every block header, runs the configured strategies in order;
  - prices a trade on a Balancer, Uniswap or Curve source (`_getLastPrice`),
    enumerating the Curve pool's coins until a lookup fails.

The chain is seen through oracles fixed for one block: address validity,
token decimals, Uniswap pool quotes per router, Balancer order-router
quotes, Curve coin lookups and prices. What a scan does is its `Run`: the
ordered log of decimals reads, quote requests and flashloan submissions,
plus the error it threw, if any. Every awaited step is sequenced by `Then`
and `InOrder`, so the first throw ends the whole `arb()` call.

Every method that computes a run is proved equal to a specification
function. The two methods that manage the executor contract are the
exceptions: `Dispatch.Arb.GetArbContractInstance` and `Dispatch.Arb.Start`
state their new object state case by case instead. These methods carry
loops with their invariants:

- `UniRouter.Arb`, `UniRouter.WalkLadder`
- `UniBal.UniBalArb.Arb`, `UniBal.UniBalArb.WalkDirections`
- `Dispatch.Arb.OnBlock`, `Dispatch.UnderlyingCurveCoinAddresses`

Lemmas about those functions state what the scans promise:

- which quotes are asked for, and in which order;
- which flashloans are submitted, and with which parameters;
- that a tier is profitable only when the return strictly exceeds the
  threshold;
- that a rejected pair or strategy stops the whole call;
- that the closure keeps the last entered pair's decimals.

## How the source is read

The three files do not run as written. Where a name is undefined or a
construct cannot parse, the model takes the evident intent:

- **Quote failures are not caught.** The scans are described as skipping a
  tier whose quote fails. The code has no `try`/`catch`, so a failed quote
  throws out of `arb()`. The model follows the code.
- **`await` outside an `async` function.** This happens in the `data`
  handler (`index.js:39-47`), in `_getUnderlyingCurveCoinAddresses`
  (`index.js:85-98`) and in `_runUniBalArbLoop` (`unibal.js:67-124`). It is
  a syntax error; the model reads every such call as awaited.
- **Undeclared `config`.** `unirouter.js` and `unibal.js` destructure a
  `config` they never declare. The model passes the bot's one configuration
  object to both.
- **Names out of scope in `_runUniBalArbLoop`.**
  - It reads `i` where its parameter is `iterator`; the model uses the
    parameter.
  - It reads `token1` and `token2`, which are local to the pair loop of
    `arb`; the model passes them as arguments.
- **Undefined names in `index.js`.**
  - `isValidStrat` is never defined. It is read as membership in the three
    strategy names that `arb-js/src/util/constants.js` exports.
  - The Balancer branch of `_getLastPrice` reads the undeclared `token1` and
    `token2`; it is read with `_token1` and `_token2`.
- **Undefined or missing imports.**
  - `Route`, `_getErc20Decimals` and `MAX_UINT` are never defined.
  - `arb-js/src/util/constants.js:11-18` exports only the three strategy
    names and the three source types. Every other name imported from it is
    therefore `undefined`: `STRAT_LIST`, `stratAbis`, `abi_erc20`,
    `abi_arb` and `TOKEN_USDC` in `index.js:13-25`, `stratAbis`,
    `STRAT_UNI_ROUTER` and `TOKEN_USDC` in `unirouter.js:11-15`, and
    `TOKEN_USDC` and `MULTICALL` in `unibal.js:9-13` (`MULTICALL` is used
    at `unibal.js:192`).
  - In particular `abi_arb.networks[chainId]` (`index.js:106`) would throw
    a TypeError on every call, so as written `_getArbContractInstance`
    never builds a contract. The model reads `abi_arb.networks` as the
    intended artefact table: the `networks` parameter of
    `Dispatch.Arb.GetArbContractInstance` maps a chain id to the executor's
    address, and a chain missing from it throws.
  - `unibal.js` also lacks `router2FactoryAddress` and
    `router2InitCodeHash`.
  - `getErc20Decimals` is declared with `(web3, addr)` but called with one
    argument.

  `STRAT_UNI_ROUTER` has its own row under "## Findings"; `abi_arb` is
  read as described just above. The rest are part of the oracles. The
  `TOKEN_USDC` branch is empty, so it has no effect.
- **The draft's pair list.** `unibal.js` splits `uniArbPairs`, not the
  `uniBalPairs` it destructures; the model does the same.
- **The router2 direction of the draft.** It leaves both amounts
  `undefined`. `BigNumber` comparisons of undefined amounts are false, so
  that direction does nothing.
- **The draft's Uniswap buy.** The call at `unibal.js:81-87` passes no
  router flag, so as written it would be priced on router2 (as in the first
  "## Findings" row), and the draft declares no router2 factory or init
  code hash. The model reads it as intended: the buy is priced on router1
  (`Quotes.BuyLeg`, used by `UniBal.LoopRun`).
- **`BigNumber.mul`.** The scans call `.mul` (`unirouter.js:57-58` and
  `:79`, `unibal.js:72-73` and `:99`). The bignumber.js version is not
  recorded in the repository, and releases that name the other methods
  `exponentiatedBy` and `isGreaterThan` may lack the `mul` alias. The model
  reads `.mul` as multiplication.

## Model

| member | source | states |
|---|---|---|
| PairList.Split | arb-js/src/arb/unirouter.js:36 | `split` on a one-character separator always yields at least one piece, and no piece contains the separator |
| PairList.JoinSplit | arb-js/src/arb/unirouter.js:36 | splitting the pair list loses nothing: joining the pieces back gives the original text |
| PairList.SplitJoin | arb-js/src/arb/unirouter.js:36 | separator-free pieces are recovered exactly by splitting their join |
| PairList.PairEntries | arb-js/src/arb/unirouter.js:36 | the pair entries are at least one, none contains a comma, and they join back to the configured list |
| PairList.PairTokens | arb-js/src/arb/unirouter.js:39-40 | token1 is the colon-free text before the first colon; token2 is undefined exactly when the entry has no colon, and otherwise is the colon-free text after the first colon |
| Quotes.TierTarget | arb-js/src/arb/unirouter.js:52-59 | a tier's target is never below the 1000-unit starting capital |
| Quotes.TierTargetProduct | arb-js/src/arb/unirouter.js:56-59 | the target is `startingCapital * 10^i * 10^token2Decimals`, the product the scans compute |
| Quotes.TierLadder | arb-js/src/arb/unirouter.js:51-55 | the ladder starts at 1000 whole token2 and each tier is ten times the one before |
| Quotes.BreakEvenNotProfitable | arb-js/src/arb/unirouter.js:76-82 | the profit test is strict: a return equal to cost plus the scaled threshold does not trade; a larger return on the same cost stays profitable; with a non-negative threshold a profitable tier returns strictly more than it costs |
| Quotes.GetAmountsForUniTrade | arb-js/src/arb/unirouter.js:116-146 | an unknown trade type throws; otherwise an unknown amount type throws; otherwise the call resolves exactly when the selected router's pool answers, with that quote, and otherwise rejects with a failed fetch |
| Quotes.ChecksPrecedeFetch | arb-js/src/arb/unirouter.js:124-130 | a rejected argument gives the same error whatever the chain and the routers hold: the checks run before any fetch |
| Quotes.RouterSelection | arb-js/src/arb/unirouter.js:133-138 | a well-formed query is priced only by the router its flag selects, and can fail only by the fetch failing |
| Quotes.LegsWellFormed | arb-js/src/arb/unirouter.js:31-34 | the corrected legs pass the checks, quote the same target in opposite directions, buy on router1 and sell on router2 |
| Quotes.AsWrittenLegsShareRouter | arb-js/src/arb/unirouter.js:61-74 | as written, both legs are priced on router2 and their quotes do not depend on router1 at all |
| Effects.ThrowSkipsRest | arb-js/src/arb/unirouter.js:55-104 | once an awaited step has thrown, the steps after it do not happen |
| UniRouter.AsWrittenTierUnnamed | arb-js/src/arb/unirouter.js:84-102 | as written, a tier asks for the same quotes, throws and submits in the same cases as the corrected tier, but each flashloan it submits names no strategy (`undefined`), where the corrected one names `uni_sushi` |
| UniRouter.OpportunityCall | arb-js/src/arb/unirouter.js:76-102 | a tier calls for at most one flashloan, and for one exactly when both quotes resolve and the trade is profitable; it borrows the target of token2 with parameters (input, token1, token2, target, output) |
| UniRouter.TierCompletes | arb-js/src/arb/unirouter.js:61-74 | whatever strategy name it submits under, a tier completes without throwing exactly when both its quotes resolve |
| UniRouter.TierQuotes | arb-js/src/arb/unirouter.js:61-74 | whatever strategy name it submits under, a tier asks for the buy quote and, only if it resolves, the sell quote on the same target |
| UniRouter.TierSubmits | arb-js/src/arb/unirouter.js:76-103 | a tier submits exactly the flashloan its opportunity calls for, under the strategy name it is given |
| UniRouter.EvaluateTier | arb-js/src/arb/unirouter.js:56-103 | the tier body computes the target, quotes both legs and submits when profitable, as `TierRun` specifies |
| UniRouter.WalkLadder | arb-js/src/arb/unirouter.js:55-104 | the tier loop runs tiers 0 to 3 in order until one throws |
| UniRouter.EvaluatePair | arb-js/src/arb/unirouter.js:38-104 | the pair body checks both addresses, reads both decimals and walks the ladder |
| UniRouter.Arb | arb-js/src/arb/unirouter.js:35-106 | `arb()` evaluates every entry of the pair list in order, stopping at the first throw |
| UniRouter.InvalidPairStopsScan | arb-js/src/arb/unirouter.js:42-45 | a pair failing the address check throws before any decimals read or quote, and no later pair is looked at |
| UniRouter.LadderLegs | arb-js/src/arb/unirouter.js:55-74 | the quotes of a complete ladder alternate buy and sell, the k-th pair on tier k's target |
| UniRouter.LadderRun | arb-js/src/arb/unirouter.js:55-104 | when every tier's quotes resolve, no tier throws, the quotes are asked in ladder order, and every profitable tier submits (a submission does not end the walk) |
| UniRouter.LadderStops | arb-js/src/arb/unirouter.js:61-74 | the first tier with a failed quote throws; later tiers ask nothing and submit nothing |
| UniRouter.PairLadder | arb-js/src/arb/unirouter.js:52-104 | a valid pair whose quotes resolve reads both decimals first, asks the eight quotes in order, submits one flashloan per profitable tier and does not throw |
| UniBal.GetAmountsForBalTrade | arb-js/src/arb/unibal.js:176-206 | a tag other than 'swapExactIn'/'swapExactOut' throws; otherwise the result is the order router's output, and a missing route rejects |
| UniBal.BalChecksPrecedeFetch | arb-js/src/arb/unibal.js:182-186 | a rejected tag gives the same error whatever the chain holds |
| UniBal.AsWrittenBalQuoteRejected | arb-js/src/arb/unibal.js:88-93 | as written, the Balancer call passes token2 as the trade type, and an address of 40 or 42 characters is always rejected |
| UniBal.BalLegPassesCheck | arb-js/src/arb/unibal.js:182-186 | the corrected Balancer leg passes the tag check and is priced exactly when the order router finds a route |
| UniBal.BalOpportunityCall | arb-js/src/arb/unibal.js:96-123 | the router1 direction calls for at most one flashloan, for one exactly when both quotes resolve and the trade is profitable, under `uni_bal` |
| UniBal.Router2DirectionIdle | arb-js/src/arb/unibal.js:80-102 | the router2 direction asks for nothing, submits nothing and never throws |
| UniBal.DirectionCompletes | arb-js/src/arb/unibal.js:80-94 | the router1 direction completes exactly when both its quotes resolve |
| UniBal.DirectionQuotes | arb-js/src/arb/unibal.js:80-94 | the router1 direction asks Uniswap for the buy and, only if it resolves, Balancer for the sell |
| UniBal.DirectionSubmits | arb-js/src/arb/unibal.js:96-123 | the router1 direction submits exactly its opportunity's flashloan |
| UniBal.DirectionPairStep | arb-js/src/arb/unibal.js:53-58 | each tier runs its router1 direction and then its idle router2 direction |
| UniBal.DirectionLadderStep | arb-js/src/arb/unibal.js:53-58 | a priced tier extends each projection of the ladder by its own share |
| UniBal.DirectionLadder | arb-js/src/arb/unibal.js:53-58 | when every router1 direction is priced, the eight calls do not throw, ask Uniswap and Balancer in tier order and submit every opportunity |
| UniBal.UniBalPairLadder | arb-js/src/arb/unibal.js:37-58 | a valid, fully priced pair reads both decimals first, asks four buys and four sells in tier order and submits one `uni_bal` flashloan per profitable tier |
| UniBal.BalInvalidPairStopsScan | arb-js/src/arb/unibal.js:41-44 | a pair failing the address check throws before reading anything, and no later pair is looked at |
| UniBal.DecimalsFrozen | arb-js/src/arb/unibal.js:51-52 | once a pair has thrown, the closure's decimals no longer change |
| UniBal.CompleteScanDecimals | arb-js/src/arb/unibal.js:51-52 | a scan that completes leaves the last entry's decimals in the closure |
| UniBal.UniBalArb.constructor | arb-js/src/arb/unibal.js:27-29 | both closure decimals start undefined |
| UniBal.UniBalArb.RunUniBalArbLoop | arb-js/src/arb/unibal.js:67-124 | one direction computes the tier target from the closure's decimals, quotes, and submits when profitable, as `LoopRun` specifies |
| UniBal.UniBalArb.WalkDirections | arb-js/src/arb/unibal.js:53-58 | the tier loop runs (0, router1), (0, router2), …, (3, router2) in order until one throws |
| UniBal.UniBalArb.EvaluatePair | arb-js/src/arb/unibal.js:37-58 | the pair body checks addresses, writes the pair's decimals to the closure (only if the check passes) and walks the directions |
| UniBal.UniBalArb.Arb | arb-js/src/arb/unibal.js:34-60 | `arb()` evaluates the pair list in order, stopping at the first throw, and leaves the decimals of the last pair entered |
| Dispatch.ValidStratsDispatch | arb-js/src/arb/index.js:40-46 | with only valid strategies, a block runs the router scan once per `uni_sushi` entry, and `uni_bal`/`crv_lp` dispatch nothing |
| Dispatch.NoRouterStratNoWork | arb-js/src/arb/index.js:44-45 | a block whose valid strategies do not include `uni_sushi` does nothing |
| Dispatch.InvalidStratStopsBlock | arb-js/src/arb/index.js:41-42 | the first invalid strategy throws, and the strategies after it are not visited |
| Dispatch.FirstGap | arb-js/src/arb/index.js:89-96 | the enumeration stops at a failing index, and every index before it succeeded |
| Dispatch.CoinMapKeys | arb-js/src/arb/index.js:89-97 | the coin map holds exactly the addresses returned before the first failure |
| Dispatch.CoinMapIndex | arb-js/src/arb/index.js:92 | each address maps to the last index that returned it |
| Dispatch.UnderlyingCurveCoinAddresses | arb-js/src/arb/index.js:85-98 | the probing loop returns the coin map of every lookup before the first failing one |
| Dispatch.LastPrice | arb-js/src/arb/index.js:60-78 | with the Curve read sent as intended: an unknown source type returns `undefined`; the `bal` branch is the spot price, the `uni` branch the execution price and the `crv` branch the `get_dy_underlying` price at the tokens' coin indices, each rejecting exactly when its read fails; only a Curve source needs a finite coin registry |
| Dispatch.CurvePriceIndices | arb-js/src/arb/index.js:70-76 | with the Curve read sent as intended, the price is asked for each token's coin index, `undefined` exactly for a token the pool does not list |
| Dispatch.AsWrittenCurveUnpriced | arb-js/src/arb/index.js:70-77 | as written, a Curve source yields the unsent `get_dy_underlying` call on the coin indices: it never fails, is never a price and does not depend on what the pool would answer; the other source types agree with `LastPrice` |
| Dispatch.Arb.constructor | arb-js/src/arb/index.js:27-30 | the executor instance and the router scan start unset |
| Dispatch.Arb.GetArbContractInstance | arb-js/src/arb/index.js:104-108 | the executor contract is created once, at the chain's address; later calls return that same instance; an unlisted chain throws |
| Dispatch.Arb.Start | arb-js/src/arb/index.js:35-36 | `arb` builds the router scan over the memoized executor instance: a first call on a listed chain succeeds with a fresh contract at the chain's address, a later call reuses the instance, and an unlisted chain throws and builds nothing |
| Dispatch.Arb.OnBlock | arb-js/src/arb/index.js:39-47 | a block header runs the configured strategies in order (`BlockRun`), stopping at the first throw |

## Left out

- The web3 provider, the block subscription, the `connected` and `error`
  handlers (`index.js:37-38` and `:48`) and console logging. These are I/O.
  The `error` handler is itself `console.error(...)`'s return value rather
  than a function.
- What the Uniswap SDK computes. `Fetcher`, `Route`, `Trade` and the pair
  reserves are an oracle per router and query. The two decimals reads inside
  the quote helper belong to that oracle and are not logged.
- Balancer's order router and Curve's `get_dy_underlying` are oracles.
- `toSignificant(6)` rounding and the unit mismatch it creates are not
  modelled: a quote is the exact real number the oracle returns. The
  mismatch is between whole-token quotes and a threshold scaled to the
  smallest unit.
- `.send({ gasPrice })`: gas, confirmation and rejection of the submitted
  transaction are not modelled. A submission is a logged event that does
  not fail.
- ABI encoding. The parameters are kept as the typed five-tuple rather
  than bytes.
- `getStrategyContractAddress` is a stub that returns `"0x"`
  (`arb-js/src/util/index.js:14`). The model records the strategy name it
  is asked for.
- Overlapping blocks. Handler invocations are modelled one at a time,
  without concurrency.
- `module.exports = UniRouterArb` at the end of `unibal.js` names an
  undefined binding. The module system is not modelled; the draft is
  modelled under its own name.
- Dispatch.UnderlyingCurveCoinAddresses: it assumes the Curve registry is
  finite, because it requires an index at which the lookup fails. A
  registry that answers at every index would make the source loop forever;
  that case is not modelled.
- Dispatch.Arb.OnBlock: it requires that `arb` has built the router scan.
  A header arriving before that cannot happen, because the subscription is
  opened only after the scan is built.
- `arb-js/src/events/index.js` (the block subscription) and the Uniswap SDK
  sources are not part of this model.

## Findings

| source | as written | input that shows it | evidently intended | confidence | as-written member | corrected member |
|---|---|---|---|---|---|---|
| arb-js/src/arb/unirouter.js:61-74 | neither quote passes `_isRouter1`, and the helper picks the router from `isRouter1`, a name declared nowhere (lines 136-137; the copy at `unibal.js:156-157` is the same) | any tier of any valid pair: the flag is undefined (falsy), so both legs go to router2. JavaScript would raise a ReferenceError on `isRouter1` | buy on router1 and sell on router2, as the comment at lines 31-34 says | not executed | Quotes.AsWrittenLegsShareRouter | Quotes.LegsWellFormed |
| arb-js/src/arb/unibal.js:88-93 | the Balancer call passes (token2, token1, target, "outputAmount") to a helper whose first parameter is the trade type | any pair whose token2 is an address (40 hex digits, with or without "0x"): the tag check at lines 182-186 throws `Invalid trade type`, so no Balancer quote is ever priced | `_getAmountsForBalTrade('swapExactIn', token2, token1, target)` | not executed | UniBal.AsWrittenBalQuoteRejected | UniBal.BalLegPassesCheck |
| arb-js/src/arb/unirouter.js:88 | the flashloan names `STRAT_UNI_ROUTER`, which `arb-js/src/util/constants.js:11-18` does not export, so the name is `undefined` | any profitable tier: the executor address is requested for `undefined` | `STRAT_UNI_SUSHI`, the strategy that dispatches to this scan (`index.js:44-45`) | not executed; no visible effect while the address lookup is a stub | UniRouter.AsWrittenTierUnnamed | UniRouter.OpportunityCall |
| arb-js/src/arb/index.js:72-76 | the Curve branch returns `await _src.methods.get_dy_underlying(i, j, amount)` without `.call()`; the method object is not a promise, so awaiting it yields the object itself | any Curve source: `_getLastPrice` resolves to an unsent call object, never to a price, and never rejects on the price read | `get_dy_underlying(i, j, amount).call()`, as the Balancer branch does with `getSpotPrice` | not executed | Dispatch.AsWrittenCurveUnpriced | Dispatch.LastPrice |
