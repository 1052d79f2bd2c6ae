/** `UniBalArb`: the Uniswap-vs-Balancer draft. It walks the same pairs and
    capital tiers as the router scan, but runs each tier twice, once from
    router1 and once from router2; only the router1 direction prices anything:
    it buys the tier's target of token2 on Uniswap and sells it on Balancer. */
module UniBal {
  import opened Common
  import opened Constants
  import opened Effects
  import opened Quotes
  import opened PairList

  /** `_getAmountsForBalTrade`: reject a tag other than 'swapExactIn' and
      'swapExactOut', and only then ask the order router for the output. */
  function GetAmountsForBalTrade(chain: Oracles, q: BalQuery): (r: Result<real>)
    ensures r == Err(InvalidBalTradeType(q.tradeType)) <==>
              q.tradeType != SWAP_EXACT_IN && q.tradeType != SWAP_EXACT_OUT
    ensures r.Ok? ==> (q.tradeType == SWAP_EXACT_IN || q.tradeType == SWAP_EXACT_OUT) &&
                      chain.sor(q) == Some(r.value)
    ensures (q.tradeType == SWAP_EXACT_IN || q.tradeType == SWAP_EXACT_OUT) && r.Err? ==>
              r == Err(QuoteFailed) && chain.sor(q).None?
  {
    if q.tradeType != SWAP_EXACT_IN && q.tradeType != SWAP_EXACT_OUT then Err(InvalidBalTradeType(q.tradeType))
    else match chain.sor(q)
      case Some(v) => Ok(v)
      case None => Err(QuoteFailed)
  }

  /** The tag check comes before any pool fetch: a rejected query gives the
      same error whatever the chain holds. */
  lemma BalChecksPrecedeFetch(chain: Oracles, chain': Oracles, q: BalQuery)
    requires q.tradeType != SWAP_EXACT_IN && q.tradeType != SWAP_EXACT_OUT
    ensures GetAmountsForBalTrade(chain, q) == GetAmountsForBalTrade(chain', q)
  {
  }

  /** Second leg of a Uniswap-vs-Balancer tier: the token1 obtained on
      Balancer by selling exactly `target` of token2. */
  function BalLeg(token1: string, token2: string, target: int): BalQuery
  {
    BalQuery(SWAP_EXACT_IN, token2, token1, target)
  }

  /** As written, the draft's Balancer call passes (token2, token1, target,
      "outputAmount"), so the tag slot `_tradeType` receives token2, and the
      quote of every tier is refused: an address the check accepts has 40 hex
      digits, with or without the "0x" prefix, and no string of 40 or 42
      characters is one of the two tags. */
  lemma AsWrittenBalQuoteRejected(chain: Oracles, q: BalQuery, token2: string)
    requires q.tradeType == token2
    requires |token2| == 40 || |token2| == 42
    ensures GetAmountsForBalTrade(chain, q) == Err(InvalidBalTradeType(token2))
  {
  }

  /** The model's Balancer leg passes the tag check, so it is priced exactly
      when the order router finds a route, whatever the tokens. */
  lemma BalLegPassesCheck(chain: Oracles, token1: string, token2: string, target: int)
    ensures GetAmountsForBalTrade(chain, BalLeg(token1, token2, target)).Ok? <==>
            chain.sor(BalLeg(token1, token2, target)).Some?
    ensures GetAmountsForBalTrade(chain, BalLeg(token1, token2, target)) != Err(InvalidBalTradeType(token2))
  {
  }

  /** Both quotes of the router1 direction of tier `i`, when both resolve. */
  function DirectionPrices(cfg: Config, chain: Oracles, token1: string, token2: string,
                           token2Decimals: nat, i: nat): Option<(real, real)>
  {
    var target := TierTarget(i, token2Decimals);
    var input := GetAmountsForUniTrade(cfg, chain, BuyLeg(token1, token2, target));
    var output := GetAmountsForBalTrade(chain, BalLeg(token1, token2, target));
    if input.Ok? && output.Ok? then Some((input.value, output.value)) else None
  }

  /** The flashloan the router1 direction of tier `i` calls for. */
  function BalOpportunity(cfg: Config, chain: Oracles, token1: string, token2: string,
                          token1Decimals: nat, token2Decimals: nat, i: nat): seq<Flashloan>
  {
    match DirectionPrices(cfg, chain, token1, token2, token2Decimals, i)
    case Some((input, output)) =>
      if Profitable(input, output, cfg.profitThreshold, token1Decimals)
      then [FlashloanFor(Some(STRAT_UNI_BAL), token1, token2, TierTarget(i, token2Decimals), input, output)]
      else []
    case None => []
  }

  /** The router1 direction of a tier calls for at most one flashloan, for
      one exactly when both quotes resolve and the round trip is profitable,
      under the `uni_bal` strategy and with the same target and parameters as
      the router scan. */
  lemma BalOpportunityCall(cfg: Config, chain: Oracles, token1: string, token2: string,
                           token1Decimals: nat, token2Decimals: nat, i: nat)
    ensures var opp := BalOpportunity(cfg, chain, token1, token2, token1Decimals, token2Decimals, i);
            var prices := DirectionPrices(cfg, chain, token1, token2, token2Decimals, i);
            && |opp| <= 1
            && (|opp| == 1 <==> prices.Some? && Profitable(prices.value.0, prices.value.1, cfg.profitThreshold, token1Decimals))
            && (|opp| == 1 ==>
                  && opp[0].token == token2
                  && opp[0].amount == TierTarget(i, token2Decimals)
                  && opp[0].strategy == Some(STRAT_UNI_BAL)
                  && opp[0].types == ["uint256", "address", "address", "uint256", "uint256"]
                  && opp[0].params == FlashParams(prices.value.0, token1, token2, TierTarget(i, token2Decimals), prices.value.1))
  {
  }

  /** One call of `_runUniBalArbLoop(iterator, isFromRouter1)`. From router2
      both amounts stay undefined, and a comparison with an undefined amount is
      false, so nothing happens. From router1 it prices the Uniswap buy, then
      the Balancer sell, then submits if profitable; a rejected quote throws. */
  function LoopRun(cfg: Config, chain: Oracles, token1: string, token2: string,
                   token1Decimals: nat, token2Decimals: nat, iter: nat, isFromRouter1: bool): Run
  {
    if !isFromRouter1 then Nothing
    else
      var target := TierTarget(iter, token2Decimals);
      var buy := BuyLeg(token1, token2, target);
      var sell := BalLeg(token1, token2, target);
      match GetAmountsForUniTrade(cfg, chain, buy)
      case Err(e) => Run([UniQuoteCall(buy)], Some(e))
      case Ok(input) =>
        match GetAmountsForBalTrade(chain, sell)
        case Err(e) => Run([UniQuoteCall(buy), BalQuoteCall(sell)], Some(e))
        case Ok(output) =>
          Run([UniQuoteCall(buy), BalQuoteCall(sell)] +
              if Profitable(input, output, cfg.profitThreshold, token1Decimals)
              then [Submit(FlashloanFor(Some(STRAT_UNI_BAL), token1, token2, target, input, output))]
              else [], None)
  }

  /** The router2 direction asks for no quote, submits nothing and never throws. */
  lemma Router2DirectionIdle(cfg: Config, chain: Oracles, token1: string, token2: string,
                             token1Decimals: nat, token2Decimals: nat, iter: nat)
    ensures LoopRun(cfg, chain, token1, token2, token1Decimals, token2Decimals, iter, false) == Nothing
  {
  }

  /** The router1 direction completes exactly when both of its quotes resolve. */
  lemma DirectionCompletes(cfg: Config, chain: Oracles, token1: string, token2: string,
                           token1Decimals: nat, token2Decimals: nat, i: nat)
    ensures LoopRun(cfg, chain, token1, token2, token1Decimals, token2Decimals, i, true).failure.None? <==>
            DirectionPrices(cfg, chain, token1, token2, token2Decimals, i).Some?
  {
  }

  /** The router1 direction asks Uniswap for the buy leg and, only if that
      resolves, Balancer for the sell leg, both on the tier's target. */
  lemma DirectionQuotes(cfg: Config, chain: Oracles, token1: string, token2: string,
                        token1Decimals: nat, token2Decimals: nat, i: nat)
    ensures var target := TierTarget(i, token2Decimals);
            var log := LoopRun(cfg, chain, token1, token2, token1Decimals, token2Decimals, i, true).log;
            && UniQuotes(log) == [BuyLeg(token1, token2, target)]
            && BalQuotes(log) ==
                 if GetAmountsForUniTrade(cfg, chain, BuyLeg(token1, token2, target)).Err? then []
                 else [BalLeg(token1, token2, target)]
  {
    var target := TierTarget(i, token2Decimals);
    var buy := BuyLeg(token1, token2, target);
    var sell := BalLeg(token1, token2, target);
    var log := LoopRun(cfg, chain, token1, token2, token1Decimals, token2Decimals, i, true).log;
    ProjectionsSingle(UniQuoteCall(buy));
    if GetAmountsForUniTrade(cfg, chain, buy).Ok? {
      var quotes := [UniQuoteCall(buy), BalQuoteCall(sell)];
      assert UniQuotes(quotes) == [buy] && BalQuotes(quotes) == [sell] by {
        ProjectionsSingle(BalQuoteCall(sell));
        ProjectionsAppend([UniQuoteCall(buy)], [BalQuoteCall(sell)]);
        assert quotes == [UniQuoteCall(buy)] + [BalQuoteCall(sell)];
      }
      assert log == quotes || exists call :: log == quotes + [Submit(call)];
      if log != quotes {
        var call :| log == quotes + [Submit(call)];
        ProjectionsSingle(Submit(call));
        ProjectionsAppend(quotes, [Submit(call)]);
      }
    }
  }

  /** The router1 direction submits exactly the flashloan its opportunity
      calls for: one, under the `uni_bal` strategy, when the round trip clears
      the threshold strictly, none otherwise. */
  lemma DirectionSubmits(cfg: Config, chain: Oracles, token1: string, token2: string,
                         token1Decimals: nat, token2Decimals: nat, i: nat)
    ensures Submitted(LoopRun(cfg, chain, token1, token2, token1Decimals, token2Decimals, i, true).log) ==
            BalOpportunity(cfg, chain, token1, token2, token1Decimals, token2Decimals, i)
  {
    var target := TierTarget(i, token2Decimals);
    var buy := BuyLeg(token1, token2, target);
    var sell := BalLeg(token1, token2, target);
    var quotes := [UniQuoteCall(buy), BalQuoteCall(sell)];
    ProjectionsSingle(UniQuoteCall(buy));
    ProjectionsSingle(BalQuoteCall(sell));
    SubmittedAppend([UniQuoteCall(buy)], [BalQuoteCall(sell)]);
    assert quotes == [UniQuoteCall(buy)] + [BalQuoteCall(sell)];
    var input := GetAmountsForUniTrade(cfg, chain, buy);
    var output := GetAmountsForBalTrade(chain, sell);
    if input.Ok? && output.Ok? {
      var call := FlashloanFor(Some(STRAT_UNI_BAL), token1, token2, target, input.value, output.value);
      ProjectionsSingle(Submit(call));
      SubmittedAppend(quotes, [Submit(call)]);
      SubmittedAppend(quotes, []);
    }
  }

  /** The eight calls of the tier loop for one pair, in the order it makes
      them: (0, router1), (0, router2), (1, router1), ..., (3, router2). */
  function DirectionRuns(cfg: Config, chain: Oracles, token1: string, token2: string,
                         token1Decimals: nat, token2Decimals: nat): (runs: seq<Run>)
    ensures |runs| == 2 * TIER_COUNT
    ensures forall m :: 0 <= m < |runs| ==>
              runs[m] == LoopRun(cfg, chain, token1, token2, token1Decimals, token2Decimals, m / 2, m % 2 == 0)
  {
    seq(2 * TIER_COUNT, m requires 0 <= m < 2 * TIER_COUNT =>
      LoopRun(cfg, chain, token1, token2, token1Decimals, token2Decimals, m / 2, m % 2 == 0))
  }

  /** One pass of the pair loop: the address check, the two decimals reads,
      then the eight directions. */
  function BalPairRun(cfg: Config, chain: Oracles, pair: string): Run
  {
    if !ValidPair(chain.isAddress, pair) then Run([], Some(InvalidPair(pair)))
    else
      var token1 := Token1(pair);
      var token2 := Token2(pair).value;
      Then(Run([ReadDecimals(token1), ReadDecimals(token2)], None),
           InOrder(DirectionRuns(cfg, chain, token1, token2, chain.decimals(token1), chain.decimals(token2))))
  }

  function BalPairRuns(cfg: Config, chain: Oracles, pairs: seq<string>): (runs: seq<Run>)
    ensures |runs| == |pairs|
    ensures forall k :: 0 <= k < |pairs| ==> runs[k] == BalPairRun(cfg, chain, pairs[k])
  {
    seq(|pairs|, k requires 0 <= k < |pairs| => BalPairRun(cfg, chain, pairs[k]))
  }

  /** What one call of the draft's `arb()` does: every entry of the pair list
      in order. The draft splits `uniArbPairs`, not `uniBalPairs`. */
  function BalScanRun(cfg: Config, chain: Oracles): Run
  {
    InOrder(BalPairRuns(cfg, chain, PairEntries(cfg.uniArbPairs)))
  }

  /** The closure-level decimals the draft keeps between `arb` and
      `_runUniBalArbLoop`: `None` until a pair first sets them. */
  datatype Decimals = Decimals(token1: Option<nat>, token2: Option<nat>)

  /** Entering a pair that passes the address check overwrites both decimals
      with that pair's; a rejected pair leaves them as they were. */
  function Entering(chain: Oracles, pair: string, before: Decimals): Decimals
  {
    if ValidPair(chain.isAddress, pair)
    then Decimals(Some(chain.decimals(Token1(pair))), Some(chain.decimals(Token2(pair).value)))
    else before
  }

  /** The decimals left behind by a scan of `pairs` whose pairs did `runs`:
      those of the last pair it entered; the pairs after the first throw are
      never entered. */
  function DecimalsAfter(chain: Oracles, pairs: seq<string>, runs: seq<Run>, before: Decimals): Decimals
    requires |runs| == |pairs|
    decreases |pairs|
  {
    if |pairs| == 0 then before
    else
      var n := |pairs| - 1;
      var prior := DecimalsAfter(chain, pairs[..n], runs[..n], before);
      if InOrder(runs[..n]).failure.Some? then prior
      else Entering(chain, pairs[n], prior)
  }

  /** Once a pair has thrown, the decimals no longer change. */
  lemma {:induction false} DecimalsFrozen(chain: Oracles, pairs: seq<string>, runs: seq<Run>, k: nat, before: Decimals)
    requires |runs| == |pairs| && k <= |pairs|
    requires InOrder(runs[..k]).failure.Some?
    ensures DecimalsAfter(chain, pairs, runs, before) == DecimalsAfter(chain, pairs[..k], runs[..k], before)
    decreases |pairs|
  {
    if k < |pairs| {
      var n := |pairs| - 1;
      assert pairs[..n][..k] == pairs[..k] && runs[..n][..k] == runs[..k];
      ThrowSkipsRest(runs[..n], k);
      DecimalsFrozen(chain, pairs[..n], runs[..n], k, before);
    } else {
      assert pairs[..k] == pairs && runs[..k] == runs;
    }
  }

  /** A scan that completes leaves behind the decimals of the last entry. */
  lemma CompleteScanDecimals(cfg: Config, chain: Oracles, pairs: seq<string>, before: Decimals)
    requires |pairs| > 0
    requires InOrder(BalPairRuns(cfg, chain, pairs)).failure.None?
    ensures DecimalsAfter(chain, pairs, BalPairRuns(cfg, chain, pairs), before) ==
            Decimals(Some(chain.decimals(Token1(pairs[|pairs| - 1]))),
                     Some(chain.decimals(Token2(pairs[|pairs| - 1]).value)))
  {
    var n := |pairs| - 1;
    var runs := BalPairRuns(cfg, chain, pairs);
    InOrderSnoc(runs, n);
    assert runs[..n + 1] == runs;
    var last := runs[n];
    assert ValidPair(chain.isAddress, pairs[n]) by {
      assert last == BalPairRun(cfg, chain, pairs[n]);
    }
  }

  /** A pair failing the address check throws before its decimals are read or
      any quote is asked for, and no later pair is looked at. */
  lemma BalInvalidPairStopsScan(cfg: Config, chain: Oracles, k: nat)
    requires k < |PairEntries(cfg.uniArbPairs)|
    requires !ValidPair(chain.isAddress, PairEntries(cfg.uniArbPairs)[k])
    requires InOrder(BalPairRuns(cfg, chain, PairEntries(cfg.uniArbPairs))[..k]).failure.None?
    ensures BalScanRun(cfg, chain) ==
              Run(InOrder(BalPairRuns(cfg, chain, PairEntries(cfg.uniArbPairs))[..k]).log,
                  Some(InvalidPair(PairEntries(cfg.uniArbPairs)[k])))
  {
    var runs := BalPairRuns(cfg, chain, PairEntries(cfg.uniArbPairs));
    InOrderSnoc(runs, k);
    ThrowSkipsRest(runs, k + 1);
  }

  /** The Uniswap buys of the first `n` tiers, in tier order. */
  function BuyLadder(token1: string, token2: string, token2Decimals: nat, n: nat): (legs: seq<UniQuery>)
    ensures |legs| == n
    ensures forall k :: 0 <= k < n ==> legs[k] == BuyLeg(token1, token2, TierTarget(k, token2Decimals))
  {
    if n == 0 then [] else BuyLadder(token1, token2, token2Decimals, n - 1) + [BuyLeg(token1, token2, TierTarget(n - 1, token2Decimals))]
  }

  /** The Balancer sells of the first `n` tiers, in tier order. */
  function SellLadder(token1: string, token2: string, token2Decimals: nat, n: nat): (legs: seq<BalQuery>)
    ensures |legs| == n
    ensures forall k :: 0 <= k < n ==> legs[k] == BalLeg(token1, token2, TierTarget(k, token2Decimals))
  {
    if n == 0 then [] else SellLadder(token1, token2, token2Decimals, n - 1) + [BalLeg(token1, token2, TierTarget(n - 1, token2Decimals))]
  }

  /** The flashloans the first `n` tiers call for, in tier order. */
  function BalLadderOpportunities(cfg: Config, chain: Oracles, token1: string, token2: string,
                                  token1Decimals: nat, token2Decimals: nat, n: nat): seq<Flashloan>
  {
    if n == 0 then []
    else BalLadderOpportunities(cfg, chain, token1, token2, token1Decimals, token2Decimals, n - 1) +
         BalOpportunity(cfg, chain, token1, token2, token1Decimals, token2Decimals, n - 1)
  }

  /** Tier `i` adds its router1 direction and then its idle router2 direction. */
  lemma DirectionPairStep(cfg: Config, chain: Oracles, token1: string, token2: string,
                          token1Decimals: nat, token2Decimals: nat, i: nat)
    requires i < TIER_COUNT
    ensures var runs := DirectionRuns(cfg, chain, token1, token2, token1Decimals, token2Decimals);
            InOrder(runs[..2 * i + 2]) ==
              Then(InOrder(runs[..2 * i]), LoopRun(cfg, chain, token1, token2, token1Decimals, token2Decimals, i, true))
  {
    var runs := DirectionRuns(cfg, chain, token1, token2, token1Decimals, token2Decimals);
    var m := 2 * i;
    assert m / 2 == i && m % 2 == 0 && (m + 1) / 2 == i && (m + 1) % 2 == 1;
    InOrderSnoc(runs, m);
    InOrderSnoc(runs, m + 1);
    assert InOrder(runs[..m + 1]).log + [] == InOrder(runs[..m + 1]).log;
  }

  /** A router1 direction whose quotes resolve: it completes, asks for one
      Uniswap and one Balancer quote on its target, and submits its
      opportunity. */
  lemma DirectionPriced(cfg: Config, chain: Oracles, token1: string, token2: string,
                        token1Decimals: nat, token2Decimals: nat, i: nat)
    requires DirectionPrices(cfg, chain, token1, token2, token2Decimals, i).Some?
    ensures var r := LoopRun(cfg, chain, token1, token2, token1Decimals, token2Decimals, i, true);
            && r.failure.None?
            && UniQuotes(r.log) == [BuyLeg(token1, token2, TierTarget(i, token2Decimals))]
            && BalQuotes(r.log) == [BalLeg(token1, token2, TierTarget(i, token2Decimals))]
            && Submitted(r.log) == BalOpportunity(cfg, chain, token1, token2, token1Decimals, token2Decimals, i)
  {
    DirectionCompletes(cfg, chain, token1, token2, token1Decimals, token2Decimals, i);
    DirectionQuotes(cfg, chain, token1, token2, token1Decimals, token2Decimals, i);
    DirectionSubmits(cfg, chain, token1, token2, token1Decimals, token2Decimals, i);
  }

  /** What a ladder of the first `n` router1 directions shows when every one
      of them is priced: it does not throw, asks Uniswap and Balancer for those
      tiers' legs in tier order, and submits every opportunity among them. */
  predicate PricedLadder(cfg: Config, chain: Oracles, token1: string, token2: string,
                         token1Decimals: nat, token2Decimals: nat, n: nat, r: Run)
  {
    && r.failure.None?
    && UniQuotes(r.log) == BuyLadder(token1, token2, token2Decimals, n)
    && BalQuotes(r.log) == SellLadder(token1, token2, token2Decimals, n)
    && Submitted(r.log) == BalLadderOpportunities(cfg, chain, token1, token2, token1Decimals, token2Decimals, n)
  }

  /** Adding tier `n`'s router1 direction, priced, to a ladder of `n` tiers
      extends each projection by that tier's share. */
  lemma DirectionLadderStep(cfg: Config, chain: Oracles, token1: string, token2: string,
                            token1Decimals: nat, token2Decimals: nat, n: nat, prev: Run)
    requires PricedLadder(cfg, chain, token1, token2, token1Decimals, token2Decimals, n, prev)
    requires DirectionPrices(cfg, chain, token1, token2, token2Decimals, n).Some?
    ensures PricedLadder(cfg, chain, token1, token2, token1Decimals, token2Decimals, n + 1,
                         Then(prev, LoopRun(cfg, chain, token1, token2, token1Decimals, token2Decimals, n, true)))
  {
    DirectionPriced(cfg, chain, token1, token2, token1Decimals, token2Decimals, n);
    ThenLogs(prev, LoopRun(cfg, chain, token1, token2, token1Decimals, token2Decimals, n, true));
  }

  /** When the router1 quotes of the first `n` tiers all resolve, the first
      `2n` calls of the direction loop show a priced ladder of `n` tiers. */
  lemma {:induction false} DirectionLadder(cfg: Config, chain: Oracles, token1: string, token2: string,
                                           token1Decimals: nat, token2Decimals: nat, n: nat)
    requires n <= TIER_COUNT
    requires forall i :: 0 <= i < n ==> DirectionPrices(cfg, chain, token1, token2, token2Decimals, i).Some?
    ensures PricedLadder(cfg, chain, token1, token2, token1Decimals, token2Decimals, n,
                         InOrder(DirectionRuns(cfg, chain, token1, token2, token1Decimals, token2Decimals)[..2 * n]))
  {
    if n > 0 {
      var runs := DirectionRuns(cfg, chain, token1, token2, token1Decimals, token2Decimals);
      var prev := InOrder(runs[..2 * (n - 1)]);
      var step := LoopRun(cfg, chain, token1, token2, token1Decimals, token2Decimals, n - 1, true);
      assert PricedLadder(cfg, chain, token1, token2, token1Decimals, token2Decimals, n, Then(prev, step)) by {
        DirectionLadder(cfg, chain, token1, token2, token1Decimals, token2Decimals, n - 1);
        DirectionLadderStep(cfg, chain, token1, token2, token1Decimals, token2Decimals, n - 1, prev);
      }
      assert InOrder(runs[..2 * n]) == Then(prev, step) by {
        DirectionPairStep(cfg, chain, token1, token2, token1Decimals, token2Decimals, n - 1);
      }
    }
  }

  /** A valid pair whose router1 quotes all resolve: the draft reads both
      decimals first, asks Uniswap for the four buys and Balancer for the four
      sells in tier order, submits one `uni_bal` flashloan per profitable tier,
      and does not throw. */
  lemma UniBalPairLadder(cfg: Config, chain: Oracles, pair: string)
    requires ValidPair(chain.isAddress, pair)
    requires forall i :: 0 <= i < TIER_COUNT ==>
      DirectionPrices(cfg, chain, Token1(pair), Token2(pair).value, chain.decimals(Token2(pair).value), i).Some?
    ensures var t1, t2 := Token1(pair), Token2(pair).value;
            var d1, d2 := chain.decimals(t1), chain.decimals(t2);
            var run := BalPairRun(cfg, chain, pair);
            && run.failure.None?
            && run.log[..2] == [ReadDecimals(t1), ReadDecimals(t2)]
            && UniQuotes(run.log) == BuyLadder(t1, t2, d2, TIER_COUNT)
            && BalQuotes(run.log) == SellLadder(t1, t2, d2, TIER_COUNT)
            && Submitted(run.log) == BalLadderOpportunities(cfg, chain, t1, t2, d1, d2, TIER_COUNT)
  {
    var t1, t2 := Token1(pair), Token2(pair).value;
    var d1, d2 := chain.decimals(t1), chain.decimals(t2);
    var runs := DirectionRuns(cfg, chain, t1, t2, d1, d2);
    var head := [ReadDecimals(t1), ReadDecimals(t2)];
    DirectionLadder(cfg, chain, t1, t2, d1, d2, TIER_COUNT);
    assert runs[..2 * TIER_COUNT] == runs;
    var ladder := InOrder(runs);
    ReadsQuoteNothing(t1, t2);
    ProjectionsAppend(head, ladder.log);
    assert (head + ladder.log)[..2] == head;
  }

  /** The draft's closure: the configuration and the two decimals that `arb`
      writes for the pair it is on and `_runUniBalArbLoop` reads. */
  class UniBalArb {
    const cfg: Config
    var token1Decimals: Option<nat>
    var token2Decimals: Option<nat>

    constructor (cfg: Config)
      ensures this.cfg == cfg && token1Decimals.None? && token2Decimals.None?
    {
      this.cfg := cfg;
      token1Decimals := None;
      token2Decimals := None;
    }

    /** `_runUniBalArbLoop`, reading the pair's decimals from the closure; the
        draft's `i` in the target is read as the parameter `iterator` (`iter` here, as `iterator` is reserved in Dafny). */
    method RunUniBalArbLoop(chain: Oracles, token1: string, token2: string,
                            iter: nat, isFromRouter1: bool) returns (step: Run)
      requires token1Decimals.Some? && token2Decimals.Some?
      ensures step == LoopRun(cfg, chain, token1, token2, token1Decimals.value, token2Decimals.value,
                              iter, isFromRouter1)
    {
      var target := STARTING_CAPITAL * (Pow10(iter) * Pow10(token2Decimals.value));
      TierTargetProduct(iter, token2Decimals.value);
      var input: Option<real> := None;
      var output: Option<real> := None;
      var log: seq<Event> := [];
      if isFromRouter1 {
        var buy := BuyLeg(token1, token2, target);
        log := [UniQuoteCall(buy)];
        var uni := GetAmountsForUniTrade(cfg, chain, buy);
        if uni.Err? {
          return Run(log, Some(uni.error));
        }
        input := Some(uni.value);
        var sell := BalLeg(token1, token2, target);
        log := log + [BalQuoteCall(sell)];
        var bal := GetAmountsForBalTrade(chain, sell);
        if bal.Err? {
          return Run(log, Some(bal.error));
        }
        output := Some(bal.value);
      }
      if input.Some? && output.Some? &&
         Profitable(input.value, output.value, cfg.profitThreshold, token1Decimals.value) {
        log := log + [Submit(FlashloanFor(Some(STRAT_UNI_BAL), token1, token2, target, input.value, output.value))];
      }
      step := Run(log, None);
    }

    /** The tier loop of one pair: for each tier, the router1 direction and
      then the router2 direction, until one throws. */
    method WalkDirections(chain: Oracles, token1: string, token2: string) returns (ladder: Run)
      requires token1Decimals.Some? && token2Decimals.Some?
      ensures ladder == InOrder(DirectionRuns(cfg, chain, token1, token2, token1Decimals.value, token2Decimals.value))
    {
      ghost var runs := DirectionRuns(cfg, chain, token1, token2, token1Decimals.value, token2Decimals.value);
      ladder := Nothing;
      var i := 0;
      ghost var done := 0;
      while i < TIER_COUNT && ladder.failure.None?
        invariant 0 <= i <= TIER_COUNT
        invariant done <= 2 * i
        invariant ladder == InOrder(runs[..done])
        invariant ladder.failure.None? ==> done == 2 * i
      {
        var ahead := RunUniBalArbLoop(chain, token1, token2, i, true);
        assert done / 2 == i && done % 2 == 0;
        InOrderSnoc(runs, done);
        ladder := Then(ladder, ahead);
        done := done + 1;
        if ladder.failure.None? {
          var back := RunUniBalArbLoop(chain, token1, token2, i, false);
          assert done / 2 == i && done % 2 == 1;
          InOrderSnoc(runs, done);
          ladder := Then(ladder, back);
          done := done + 1;
        }
        i := i + 1;
      }
      if ladder.failure.Some? {
        ThrowSkipsRest(runs, done);
      } else {
        assert runs[..2 * TIER_COUNT] == runs;
      }
    }

    /** The body of the pair loop: the address check, the decimals written to
        the closure, and the tier loop. */
    method EvaluatePair(chain: Oracles, pair: string) returns (step: Run)
      modifies this
      ensures step == BalPairRun(cfg, chain, pair)
      ensures Decimals(token1Decimals, token2Decimals) ==
              Entering(chain, pair, Decimals(old(token1Decimals), old(token2Decimals)))
    {
      var token1 := Token1(pair);
      var token2 := Token2(pair);
      if !chain.isAddress(token1) || token2.None? || !chain.isAddress(token2.value) {
        return Run([], Some(InvalidPair(pair)));
      }
      token1Decimals := Some(chain.decimals(token1));
      token2Decimals := Some(chain.decimals(token2.value));
      var ladder := WalkDirections(chain, token1, token2.value);
      step := Then(Run([ReadDecimals(token1), ReadDecimals(token2.value)], None), ladder);
    }

    /** `this.arb`: every entry of the pair list in order; the first throw
        ends the scan, and the closure keeps the decimals of the last pair
        entered. */
    method Arb(chain: Oracles) returns (run: Run)
      modifies this
      ensures run == BalScanRun(cfg, chain)
      ensures Decimals(token1Decimals, token2Decimals) ==
              DecimalsAfter(chain, PairEntries(cfg.uniArbPairs), BalPairRuns(cfg, chain, PairEntries(cfg.uniArbPairs)),
                            Decimals(old(token1Decimals), old(token2Decimals)))
    {
      var arbPairs := PairEntries(cfg.uniArbPairs);
      ghost var runs := BalPairRuns(cfg, chain, arbPairs);
      ghost var start := Decimals(token1Decimals, token2Decimals);
      run := Nothing;
      var k := 0;
      while k < |arbPairs| && run.failure.None?
        invariant 0 <= k <= |arbPairs|
        invariant run == InOrder(runs[..k])
        invariant Decimals(token1Decimals, token2Decimals) == DecimalsAfter(chain, arbPairs[..k], runs[..k], start)
      {
        var step := EvaluatePair(chain, arbPairs[k]);
        assert arbPairs[..k + 1][..k] == arbPairs[..k] && runs[..k + 1][..k] == runs[..k];
        InOrderSnoc(runs, k);
        run := Then(run, step);
        k := k + 1;
      }
      if run.failure.Some? {
        ThrowSkipsRest(runs, k);
        DecimalsFrozen(chain, arbPairs, runs, k, start);
      } else {
        assert arbPairs[..k] == arbPairs;
        assert runs[..k] == runs;
      }
    }
  }
}
