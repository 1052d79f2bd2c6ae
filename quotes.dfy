/** What the router scan and the Uniswap-vs-Balancer draft share: the capital
    ladder, the profit test, the Uniswap quote helper `_getAmountsForUniTrade`
    (the two files carry identical copies of it) and the flashloan they build. */
module Quotes {
  import opened Common
  import opened Constants
  import opened Effects

  /** The amount of token2, in its smallest unit, that tier `i` trades:
      `startingCapital` whole tokens scaled up by `10^i`. */
  function TierTarget(i: nat, token2Decimals: nat): (target: nat)
    ensures target >= STARTING_CAPITAL
  {
    STARTING_CAPITAL * Pow10(i + token2Decimals)
  }

  /** The target is the product the scans compute,
      `startingCapital * 10^i * 10^token2Decimals`. */
  lemma TierTargetProduct(i: nat, token2Decimals: nat)
    ensures TierTarget(i, token2Decimals) == STARTING_CAPITAL * (Pow10(i) * Pow10(token2Decimals))
  {
    Pow10Add(i, token2Decimals);
  }

  /** The ladder is geometric: it starts at 1000 whole tokens and every tier
      trades ten times the one before. */
  lemma TierLadder(i: nat, token2Decimals: nat)
    ensures TierTarget(0, token2Decimals) == STARTING_CAPITAL * Pow10(token2Decimals)
    ensures TierTarget(i + 1, token2Decimals) == 10 * TierTarget(i, token2Decimals)
  {
  }

  /** The profit test: what the second leg returns must exceed what the first
      leg costs by strictly more than the threshold, scaled to token1's
      smallest unit. */
  predicate Profitable(input: real, output: real, threshold: real, token1Decimals: nat)
  {
    output > input + threshold * (Pow10(token1Decimals) as real)
  }

  /** The test is strict: breaking even by exactly the scaled threshold does
      not trade. A larger return on the same cost stays profitable, and with a
      non-negative threshold a profitable tier returns more than it costs. */
  lemma BreakEvenNotProfitable(input: real, output: real, output': real, threshold: real, token1Decimals: nat)
    ensures !Profitable(input, input + threshold * (Pow10(token1Decimals) as real), threshold, token1Decimals)
    ensures Profitable(input, output, threshold, token1Decimals) && output <= output' ==>
              Profitable(input, output', threshold, token1Decimals)
    ensures Profitable(input, output, threshold, token1Decimals) && threshold >= 0.0 ==> output > input
  {
  }

  /** The router whose pools a query is priced on. */
  function VenueOf(cfg: Config, q: UniQuery): Venue
  {
    if q.isRouter1 then cfg.router1 else cfg.router2
  }

  /** `_getAmountsForUniTrade`: reject an unknown trade type, then an unknown
      amount type, and only then fetch the pair from the selected router and
      price the trade. */
  function GetAmountsForUniTrade(cfg: Config, chain: Oracles, q: UniQuery): (r: Result<real>)
    ensures r == Err(InvalidUniTradeType(q.tradeType)) <==>
              q.tradeType != EXACT_INPUT && q.tradeType != EXACT_OUTPUT
    ensures r == Err(InvalidAmountType(q.amountType)) <==>
              (q.tradeType == EXACT_INPUT || q.tradeType == EXACT_OUTPUT) &&
              q.amountType != OUTPUT_AMOUNT && q.amountType != INPUT_AMOUNT
    ensures r.Ok? ==> (q.tradeType == EXACT_INPUT || q.tradeType == EXACT_OUTPUT) &&
                      (q.amountType == OUTPUT_AMOUNT || q.amountType == INPUT_AMOUNT)
    ensures r.Ok? ==> chain.uniPool(VenueOf(cfg, q), q) == Some(r.value)
    ensures (q.tradeType == EXACT_INPUT || q.tradeType == EXACT_OUTPUT) &&
            (q.amountType == OUTPUT_AMOUNT || q.amountType == INPUT_AMOUNT) ==>
              (r.Ok? <==> chain.uniPool(VenueOf(cfg, q), q).Some?) && (r.Err? ==> r == Err(QuoteFailed))
  {
    if q.tradeType != EXACT_INPUT && q.tradeType != EXACT_OUTPUT then Err(InvalidUniTradeType(q.tradeType))
    else if q.amountType != OUTPUT_AMOUNT && q.amountType != INPUT_AMOUNT then Err(InvalidAmountType(q.amountType))
    else match chain.uniPool(VenueOf(cfg, q), q)
      case Some(v) => Ok(v)
      case None => Err(QuoteFailed)
  }

  /** The argument checks come before any fetch: a rejected query gives the
      same error whatever the chain and the routers are. */
  lemma ChecksPrecedeFetch(cfg: Config, cfg': Config, chain: Oracles, chain': Oracles, q: UniQuery)
    requires (q.tradeType != EXACT_INPUT && q.tradeType != EXACT_OUTPUT) ||
             (q.amountType != OUTPUT_AMOUNT && q.amountType != INPUT_AMOUNT)
    ensures GetAmountsForUniTrade(cfg, chain, q).Err?
    ensures GetAmountsForUniTrade(cfg, chain, q) == GetAmountsForUniTrade(cfg', chain', q)
  {
  }

  /** A well-formed query is priced on router1 exactly when its flag is set:
      only that router's factory and hash decide the answer. */
  lemma RouterSelection(cfg: Config, cfg': Config, chain: Oracles, q: UniQuery)
    requires q.tradeType == EXACT_INPUT || q.tradeType == EXACT_OUTPUT
    requires q.amountType == OUTPUT_AMOUNT || q.amountType == INPUT_AMOUNT
    requires q.isRouter1 ==> cfg'.router1 == cfg.router1
    requires !q.isRouter1 ==> cfg'.router2 == cfg.router2
    ensures GetAmountsForUniTrade(cfg, chain, q) == GetAmountsForUniTrade(cfg', chain, q)
    ensures GetAmountsForUniTrade(cfg, chain, q).Err? ==> GetAmountsForUniTrade(cfg, chain, q) == Err(QuoteFailed)
  {
  }

  /** First leg of a tier: the token1 cost, on router1, of buying exactly
      `target` of token2. */
  function BuyLeg(token1: string, token2: string, target: int): UniQuery
  {
    UniQuery(EXACT_OUTPUT, token1, token2, target, INPUT_AMOUNT, true)
  }

  /** Second leg of a router-vs-router tier: the token1 obtained, on router2,
      by selling exactly `target` of token2. */
  function SellLeg(token1: string, token2: string, target: int): UniQuery
  {
    UniQuery(EXACT_INPUT, token2, token1, target, OUTPUT_AMOUNT, false)
  }

  /** The quotes of one router-vs-router tier, buy before sell. */
  function Legs(token1: string, token2: string, target: int): seq<UniQuery>
  {
    [BuyLeg(token1, token2, target), SellLeg(token1, token2, target)]
  }

  /** The legs of a tier pass the argument checks, quote the same target, in
      opposite directions, and on different routers. */
  lemma LegsWellFormed(cfg: Config, chain: Oracles, token1: string, token2: string, target: int)
    ensures GetAmountsForUniTrade(cfg, chain, BuyLeg(token1, token2, target)).Ok? ==
            chain.uniPool(cfg.router1, BuyLeg(token1, token2, target)).Some?
    ensures GetAmountsForUniTrade(cfg, chain, SellLeg(token1, token2, target)).Ok? ==
            chain.uniPool(cfg.router2, SellLeg(token1, token2, target)).Some?
    ensures BuyLeg(token1, token2, target).amount == SellLeg(token1, token2, target).amount == target
    ensures VenueOf(cfg, BuyLeg(token1, token2, target)) == cfg.router1
    ensures VenueOf(cfg, SellLeg(token1, token2, target)) == cfg.router2
  {
  }

  /** The legs as the router scan writes them: no router flag is passed, so
      `_isRouter1` is undefined (and the helper reads an undeclared `isRouter1`);
      a falsy flag prices both legs on router2. */
  function LegsAsWritten(token1: string, token2: string, target: int): (legs: (UniQuery, UniQuery))
  {
    (UniQuery(EXACT_OUTPUT, token1, token2, target, INPUT_AMOUNT, false),
     UniQuery(EXACT_INPUT, token2, token1, target, OUTPUT_AMOUNT, false))
  }

  /** As written, both legs of every tier are priced on the same router, so
      the scan compares router2 with itself and never looks at router1. */
  lemma AsWrittenLegsShareRouter(cfg: Config, cfg': Config, chain: Oracles, token1: string, token2: string, target: int)
    requires cfg'.router2 == cfg.router2
    ensures VenueOf(cfg, LegsAsWritten(token1, token2, target).0) == cfg.router2
    ensures VenueOf(cfg, LegsAsWritten(token1, token2, target).1) == cfg.router2
    ensures GetAmountsForUniTrade(cfg, chain, LegsAsWritten(token1, token2, target).0) ==
            GetAmountsForUniTrade(cfg', chain, LegsAsWritten(token1, token2, target).0)
    ensures GetAmountsForUniTrade(cfg, chain, LegsAsWritten(token1, token2, target).1) ==
            GetAmountsForUniTrade(cfg', chain, LegsAsWritten(token1, token2, target).1)
  {
  }

  /** The `initFlashloan` call for a profitable tier: borrow `target` of token2
      from the executor for `strategy`, with the parameters
      (input, token1, token2, target, output) typed (uint256, address, address,
      uint256, uint256). */
  function FlashloanFor(strategy: Option<string>, token1: string, token2: string, target: int,
                        input: real, output: real): Flashloan
  {
    Flashloan(token2, target, strategy, PARAM_TYPES, FlashParams(input, token1, token2, target, output))
  }
}
