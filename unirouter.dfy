/** `UniRouterArb.arb`: the Uniswap-vs-Uniswap scan. For every configured
    pair it walks the four capital tiers, prices a round trip
    token1 -> token2 on router1 and token2 -> token1 on router2, and asks the
    executor for a flashloan when the round trip clears the profit threshold. */
module UniRouter {
  import opened Common
  import opened Constants
  import opened Effects
  import opened Quotes
  import opened PairList

  /** The strategy whose executor the router scan borrows through: the one
      the block handler dispatches to this scan. */
  const ROUTER_SCAN_STRATEGY: Option<string> := Some(STRAT_UNI_SUSHI)

  /** The name the router scan actually hands to `getStrategyContractAddress`:
      it imports `STRAT_UNI_ROUTER`, which the constants module does not
      export, so the argument is `undefined`. */
  const STRATEGY_AS_WRITTEN: Option<string> := None

  /** Both quotes of tier `i`, when both resolve. */
  function TierPrices(cfg: Config, chain: Oracles, token1: string, token2: string,
                      token2Decimals: nat, i: nat): Option<(real, real)>
  {
    var target := TierTarget(i, token2Decimals);
    var input := GetAmountsForUniTrade(cfg, chain, BuyLeg(token1, token2, target));
    var output := GetAmountsForUniTrade(cfg, chain, SellLeg(token1, token2, target));
    if input.Ok? && output.Ok? then Some((input.value, output.value)) else None
  }

  /** The flashloan tier `i` calls for: one when both quotes resolve and the
      round trip is profitable, none otherwise. */
  function Opportunity(cfg: Config, chain: Oracles, strategy: Option<string>, token1: string, token2: string,
                       token1Decimals: nat, token2Decimals: nat, i: nat): seq<Flashloan>
  {
    match TierPrices(cfg, chain, token1, token2, token2Decimals, i)
    case Some((input, output)) =>
      if Profitable(input, output, cfg.profitThreshold, token1Decimals)
      then [FlashloanFor(strategy, token1, token2, TierTarget(i, token2Decimals), input, output)]
      else []
    case None => []
  }

  /** A tier calls for at most one flashloan, and for one exactly when both
      quotes resolve and the round trip is profitable; that call borrows the
      tier's target of token2 for the `uni_sushi` strategy and carries
      (input, token1, token2, target, output) typed as the executor expects. */
  lemma OpportunityCall(cfg: Config, chain: Oracles, token1: string, token2: string,
                        token1Decimals: nat, token2Decimals: nat, i: nat)
    ensures var opp := Opportunity(cfg, chain, ROUTER_SCAN_STRATEGY, token1, token2, token1Decimals, token2Decimals, i);
            var prices := TierPrices(cfg, chain, token1, token2, token2Decimals, i);
            && |opp| <= 1
            && (|opp| == 1 <==> prices.Some? && Profitable(prices.value.0, prices.value.1, cfg.profitThreshold, token1Decimals))
            && (|opp| == 1 ==>
                  && opp[0].token == token2
                  && opp[0].amount == TierTarget(i, token2Decimals)
                  && opp[0].strategy == Some(STRAT_UNI_SUSHI)
                  && opp[0].types == ["uint256", "address", "address", "uint256", "uint256"]
                  && opp[0].params == FlashParams(prices.value.0, token1, token2, TierTarget(i, token2Decimals), prices.value.1))
  {
  }

  /** One pass of the tier loop: quote the buy leg, then the sell leg, then
      submit if profitable; a rejected quote throws out of the scan. */
  function TierRun(cfg: Config, chain: Oracles, strategy: Option<string>, token1: string, token2: string,
                   token1Decimals: nat, token2Decimals: nat, i: nat): Run
  {
    var target := TierTarget(i, token2Decimals);
    var buy := BuyLeg(token1, token2, target);
    var sell := SellLeg(token1, token2, target);
    match GetAmountsForUniTrade(cfg, chain, buy)
    case Err(e) => Run([UniQuoteCall(buy)], Some(e))
    case Ok(input) =>
      match GetAmountsForUniTrade(cfg, chain, sell)
      case Err(e) => Run([UniQuoteCall(buy), UniQuoteCall(sell)], Some(e))
      case Ok(output) =>
        Run([UniQuoteCall(buy), UniQuoteCall(sell)] +
            if Profitable(input, output, cfg.profitThreshold, token1Decimals)
            then [Submit(FlashloanFor(strategy, token1, token2, target, input, output))]
            else [], None)
  }

  /** A tier completes exactly when both of its quotes resolve. */
  lemma TierCompletes(cfg: Config, chain: Oracles, strategy: Option<string>, token1: string, token2: string,
                      token1Decimals: nat, token2Decimals: nat, i: nat)
    ensures TierRun(cfg, chain, strategy, token1, token2, token1Decimals, token2Decimals, i).failure.None? <==>
            TierPrices(cfg, chain, token1, token2, token2Decimals, i).Some?
  {
  }

  /** A tier asks for the buy quote and, if that resolves, the sell quote on
      the same target. */
  lemma TierQuotes(cfg: Config, chain: Oracles, strategy: Option<string>, token1: string, token2: string,
                   token1Decimals: nat, token2Decimals: nat, i: nat)
    ensures var target := TierTarget(i, token2Decimals);
            UniQuotes(TierRun(cfg, chain, strategy, token1, token2, token1Decimals, token2Decimals, i).log) ==
              if GetAmountsForUniTrade(cfg, chain, BuyLeg(token1, token2, target)).Err?
              then [BuyLeg(token1, token2, target)]
              else Legs(token1, token2, target)
  {
    var target := TierTarget(i, token2Decimals);
    var buy := BuyLeg(token1, token2, target);
    var sell := SellLeg(token1, token2, target);
    var log := TierRun(cfg, chain, strategy, token1, token2, token1Decimals, token2Decimals, i).log;
    ProjectionsSingle(UniQuoteCall(buy));
    if GetAmountsForUniTrade(cfg, chain, buy).Ok? {
      var quotes := [UniQuoteCall(buy), UniQuoteCall(sell)];
      assert UniQuotes(quotes) == Legs(token1, token2, target) by {
        ProjectionsSingle(UniQuoteCall(sell));
        UniQuotesAppend([UniQuoteCall(buy)], [UniQuoteCall(sell)]);
        assert quotes == [UniQuoteCall(buy)] + [UniQuoteCall(sell)];
      }
      assert log == quotes || exists call :: log == quotes + [Submit(call)];
      if log != quotes {
        var call :| log == quotes + [Submit(call)];
        ProjectionsSingle(Submit(call));
        UniQuotesAppend(quotes, [Submit(call)]);
      }
    }
  }

  /** A tier submits exactly the flashloan its opportunity calls for: one when
      the round trip is profitable, none otherwise (equality is not enough). */
  lemma TierSubmits(cfg: Config, chain: Oracles, strategy: Option<string>, token1: string, token2: string,
                    token1Decimals: nat, token2Decimals: nat, i: nat)
    ensures Submitted(TierRun(cfg, chain, strategy, token1, token2, token1Decimals, token2Decimals, i).log) ==
            Opportunity(cfg, chain, strategy, token1, token2, token1Decimals, token2Decimals, i)
  {
    var target := TierTarget(i, token2Decimals);
    var buy := BuyLeg(token1, token2, target);
    var sell := SellLeg(token1, token2, target);
    var quotes := [UniQuoteCall(buy), UniQuoteCall(sell)];
    ProjectionsSingle(UniQuoteCall(buy));
    ProjectionsSingle(UniQuoteCall(sell));
    SubmittedAppend([UniQuoteCall(buy)], [UniQuoteCall(sell)]);
    assert quotes == [UniQuoteCall(buy)] + [UniQuoteCall(sell)];
    var input := GetAmountsForUniTrade(cfg, chain, buy);
    var output := GetAmountsForUniTrade(cfg, chain, sell);
    if input.Ok? && output.Ok? {
      var call := FlashloanFor(strategy, token1, token2, target, input.value, output.value);
      var tail := if Profitable(input.value, output.value, cfg.profitThreshold, token1Decimals) then [Submit(call)] else [];
      assert TierRun(cfg, chain, strategy, token1, token2, token1Decimals, token2Decimals, i).log == quotes + tail;
      ProjectionsSingle(Submit(call));
      SubmittedAppend(quotes, tail);
    }
  }

  /** What the undefined strategy name changes in a tier: nothing in the
      quotes it asks for or in when it throws or submits, but every flashloan
      it submits names no strategy, where the corrected tier names `uni_sushi`,
      and so asks the executor for the address of none of the configured
      strategies. */
  lemma AsWrittenTierUnnamed(cfg: Config, chain: Oracles, token1: string, token2: string,
                             token1Decimals: nat, token2Decimals: nat, i: nat)
    ensures var asWritten := TierRun(cfg, chain, STRATEGY_AS_WRITTEN, token1, token2, token1Decimals, token2Decimals, i);
            var corrected := TierRun(cfg, chain, ROUTER_SCAN_STRATEGY, token1, token2, token1Decimals, token2Decimals, i);
            && asWritten.failure == corrected.failure
            && UniQuotes(asWritten.log) == UniQuotes(corrected.log)
            && |Submitted(asWritten.log)| == |Submitted(corrected.log)|
            && (forall k :: 0 <= k < |Submitted(asWritten.log)| ==>
                  && Submitted(corrected.log)[k].strategy == Some(STRAT_UNI_SUSHI)
                  && Submitted(asWritten.log)[k] == Submitted(corrected.log)[k].(strategy := None)
                  && Submitted(asWritten.log)[k].strategy != Some(STRAT_UNI_SUSHI)
                  && Submitted(asWritten.log)[k].strategy != Some(STRAT_UNI_BAL)
                  && Submitted(asWritten.log)[k].strategy != Some(STRAT_CRV_LP))
  {
    TierCompletes(cfg, chain, STRATEGY_AS_WRITTEN, token1, token2, token1Decimals, token2Decimals, i);
    TierCompletes(cfg, chain, ROUTER_SCAN_STRATEGY, token1, token2, token1Decimals, token2Decimals, i);
    TierQuotes(cfg, chain, STRATEGY_AS_WRITTEN, token1, token2, token1Decimals, token2Decimals, i);
    TierQuotes(cfg, chain, ROUTER_SCAN_STRATEGY, token1, token2, token1Decimals, token2Decimals, i);
    TierSubmits(cfg, chain, STRATEGY_AS_WRITTEN, token1, token2, token1Decimals, token2Decimals, i);
    TierSubmits(cfg, chain, ROUTER_SCAN_STRATEGY, token1, token2, token1Decimals, token2Decimals, i);
  }

  /** The four tiers of a pair, in increasing order. */
  function TierRuns(cfg: Config, chain: Oracles, token1: string, token2: string,
                    token1Decimals: nat, token2Decimals: nat): (runs: seq<Run>)
    ensures |runs| == TIER_COUNT
    ensures forall i :: 0 <= i < TIER_COUNT ==>
              runs[i] == TierRun(cfg, chain, ROUTER_SCAN_STRATEGY, token1, token2, token1Decimals, token2Decimals, i)
  {
    seq(TIER_COUNT, i requires 0 <= i < TIER_COUNT =>
      TierRun(cfg, chain, ROUTER_SCAN_STRATEGY, token1, token2, token1Decimals, token2Decimals, i))
  }

  /** One pass of the pair loop: the address check, the two decimals reads,
      then the tiers. */
  function PairRun(cfg: Config, chain: Oracles, pair: string): Run
  {
    if !ValidPair(chain.isAddress, pair) then Run([], Some(InvalidPair(pair)))
    else
      var token1 := Token1(pair);
      var token2 := Token2(pair).value;
      var token1Decimals := chain.decimals(token1);
      var token2Decimals := chain.decimals(token2);
      Then(Run([ReadDecimals(token1), ReadDecimals(token2)], None),
           InOrder(TierRuns(cfg, chain, token1, token2, token1Decimals, token2Decimals)))
  }

  function PairRuns(cfg: Config, chain: Oracles, pairs: seq<string>): (runs: seq<Run>)
    ensures |runs| == |pairs|
    ensures forall k :: 0 <= k < |pairs| ==> runs[k] == PairRun(cfg, chain, pairs[k])
  {
    seq(|pairs|, k requires 0 <= k < |pairs| => PairRun(cfg, chain, pairs[k]))
  }

  /** What one call of `arb()` does: every entry of `uniArbPairs`, in order. */
  function ScanRun(cfg: Config, chain: Oracles): Run
  {
    InOrder(PairRuns(cfg, chain, PairEntries(cfg.uniArbPairs)))
  }

  /** The body of the tier loop for tier `i`: the target, the buy quote, the
      sell quote, and the submission when the round trip is profitable. */
  method EvaluateTier(cfg: Config, chain: Oracles, token1: string, token2: string,
                      token1Decimals: nat, token2Decimals: nat, i: nat) returns (step: Run)
    ensures step == TierRun(cfg, chain, ROUTER_SCAN_STRATEGY, token1, token2, token1Decimals, token2Decimals, i)
  {
    var target := STARTING_CAPITAL * (Pow10(i) * Pow10(token2Decimals));
    TierTargetProduct(i, token2Decimals);
    var buy := BuyLeg(token1, token2, target);
    var input := GetAmountsForUniTrade(cfg, chain, buy);
    if input.Err? {
      return Run([UniQuoteCall(buy)], Some(input.error));
    }
    var sell := SellLeg(token1, token2, target);
    var output := GetAmountsForUniTrade(cfg, chain, sell);
    if output.Err? {
      return Run([UniQuoteCall(buy), UniQuoteCall(sell)], Some(output.error));
    }
    step := Run([UniQuoteCall(buy), UniQuoteCall(sell)], None);
    if Profitable(input.value, output.value, cfg.profitThreshold, token1Decimals) {
      var call := FlashloanFor(ROUTER_SCAN_STRATEGY, token1, token2, target, input.value, output.value);
      step := Run(step.log + [Submit(call)], None);
    }
  }

  /** The tier loop of one pair: tiers 0 to 3 in order, until one throws. */
  method WalkLadder(cfg: Config, chain: Oracles, token1: string, token2: string,
                    token1Decimals: nat, token2Decimals: nat) returns (ladder: Run)
    ensures ladder == InOrder(TierRuns(cfg, chain, token1, token2, token1Decimals, token2Decimals))
  {
    ghost var tiers := TierRuns(cfg, chain, token1, token2, token1Decimals, token2Decimals);
    ladder := Nothing;
    var i := 0;
    while i < TIER_COUNT && ladder.failure.None?
      invariant 0 <= i <= TIER_COUNT
      invariant ladder == InOrder(tiers[..i])
    {
      var tier := EvaluateTier(cfg, chain, token1, token2, token1Decimals, token2Decimals, i);
      InOrderSnoc(tiers, i);
      ladder := Then(ladder, tier);
      i := i + 1;
    }
    if ladder.failure.Some? {
      ThrowSkipsRest(tiers, i);
    } else {
      assert tiers[..TIER_COUNT] == tiers;
    }
  }

  /** The body of the pair loop: the address check, the decimals reads and
      the tier loop. */
  method EvaluatePair(cfg: Config, chain: Oracles, pair: string) returns (step: Run)
    ensures step == PairRun(cfg, chain, pair)
  {
    var token1 := Token1(pair);
    var token2 := Token2(pair);
    if !chain.isAddress(token1) || token2.None? || !chain.isAddress(token2.value) {
      return Run([], Some(InvalidPair(pair)));
    }
    var token1Decimals := chain.decimals(token1);
    var token2Decimals := chain.decimals(token2.value);
    var ladder := WalkLadder(cfg, chain, token1, token2.value, token1Decimals, token2Decimals);
    step := Then(Run([ReadDecimals(token1), ReadDecimals(token2.value)], None), ladder);
  }

  /** `this.arb`: split the pair list and evaluate every entry in order; the
      first throw ends the scan. */
  method Arb(cfg: Config, chain: Oracles) returns (run: Run)
    ensures run == ScanRun(cfg, chain)
  {
    var arbPairs := PairEntries(cfg.uniArbPairs);
    ghost var pairRuns := PairRuns(cfg, chain, arbPairs);
    run := Nothing;
    var k := 0;
    while k < |arbPairs| && run.failure.None?
      invariant 0 <= k <= |arbPairs|
      invariant run == InOrder(pairRuns[..k])
    {
      var step := EvaluatePair(cfg, chain, arbPairs[k]);
      InOrderSnoc(pairRuns, k);
      run := Then(run, step);
      k := k + 1;
    }
    if run.failure.Some? {
      ThrowSkipsRest(pairRuns, k);
    } else {
      assert pairRuns[..k] == pairRuns;
    }
  }

  /** A pair failing the address check throws before its decimals are read or
      any quote is asked for, and no later pair is looked at: the scan's log is
      exactly what the earlier pairs did. */
  lemma InvalidPairStopsScan(cfg: Config, chain: Oracles, k: nat)
    requires k < |PairEntries(cfg.uniArbPairs)|
    requires !ValidPair(chain.isAddress, PairEntries(cfg.uniArbPairs)[k])
    requires InOrder(PairRuns(cfg, chain, PairEntries(cfg.uniArbPairs))[..k]).failure.None?
    ensures ScanRun(cfg, chain) ==
              Run(InOrder(PairRuns(cfg, chain, PairEntries(cfg.uniArbPairs))[..k]).log,
                  Some(InvalidPair(PairEntries(cfg.uniArbPairs)[k])))
  {
    var runs := PairRuns(cfg, chain, PairEntries(cfg.uniArbPairs));
    InOrderSnoc(runs, k);
    ThrowSkipsRest(runs, k + 1);
  }

  /** The quotes the first `n` tiers ask for when they all resolve: the buy
      and the sell leg of each tier, tier after tier. */
  function LadderLegs(token1: string, token2: string, token2Decimals: nat, n: nat): (legs: seq<UniQuery>)
    ensures |legs| == 2 * n
    ensures forall k :: 0 <= k < |legs| ==>
              legs[k] == if k % 2 == 0 then BuyLeg(token1, token2, TierTarget(k / 2, token2Decimals))
                         else SellLeg(token1, token2, TierTarget(k / 2, token2Decimals))
  {
    if n == 0 then []
    else LadderLegs(token1, token2, token2Decimals, n - 1) + Legs(token1, token2, TierTarget(n - 1, token2Decimals))
  }

  /** The flashloans the first `n` tiers call for, in tier order. */
  function LadderOpportunities(cfg: Config, chain: Oracles, token1: string, token2: string,
                               token1Decimals: nat, token2Decimals: nat, n: nat): seq<Flashloan>
  {
    if n == 0 then []
    else LadderOpportunities(cfg, chain, token1, token2, token1Decimals, token2Decimals, n - 1) +
         Opportunity(cfg, chain, ROUTER_SCAN_STRATEGY, token1, token2, token1Decimals, token2Decimals, n - 1)
  }

  /** When the first `n` tiers' quotes all resolve, those tiers run to the
      end without throwing, ask for their quotes in ladder order, and submit
      every opportunity among them: a profitable tier does not end the walk. */
  lemma {:induction false} LadderRun(cfg: Config, chain: Oracles, token1: string, token2: string,
                                     token1Decimals: nat, token2Decimals: nat, n: nat)
    requires n <= TIER_COUNT
    requires forall i :: 0 <= i < n ==> TierPrices(cfg, chain, token1, token2, token2Decimals, i).Some?
    ensures var r := InOrder(TierRuns(cfg, chain, token1, token2, token1Decimals, token2Decimals)[..n]);
            && r.failure.None?
            && UniQuotes(r.log) == LadderLegs(token1, token2, token2Decimals, n)
            && Submitted(r.log) == LadderOpportunities(cfg, chain, token1, token2, token1Decimals, token2Decimals, n)
  {
    var tiers := TierRuns(cfg, chain, token1, token2, token1Decimals, token2Decimals);
    if n > 0 {
      LadderRun(cfg, chain, token1, token2, token1Decimals, token2Decimals, n - 1);
      InOrderSnoc(tiers, n - 1);
      var before := InOrder(tiers[..n - 1]);
      var tier := tiers[n - 1];
      TierCompletes(cfg, chain, ROUTER_SCAN_STRATEGY, token1, token2, token1Decimals, token2Decimals, n - 1);
      TierQuotes(cfg, chain, ROUTER_SCAN_STRATEGY, token1, token2, token1Decimals, token2Decimals, n - 1);
      TierSubmits(cfg, chain, ROUTER_SCAN_STRATEGY, token1, token2, token1Decimals, token2Decimals, n - 1);
      UniQuotesAppend(before.log, tier.log);
      SubmittedAppend(before.log, tier.log);
    }
  }

  /** A tier whose quote is rejected throws out of the pair, so the later
      tiers never run: the quotes asked for are those of the complete tiers
      before it, then its own. */
  lemma LadderStops(cfg: Config, chain: Oracles, token1: string, token2: string,
                    token1Decimals: nat, token2Decimals: nat, j: nat)
    requires j < TIER_COUNT
    requires forall i :: 0 <= i < j ==> TierPrices(cfg, chain, token1, token2, token2Decimals, i).Some?
    requires TierPrices(cfg, chain, token1, token2, token2Decimals, j).None?
    ensures var r := InOrder(TierRuns(cfg, chain, token1, token2, token1Decimals, token2Decimals));
            && r.failure.Some?
            && UniQuotes(r.log) == LadderLegs(token1, token2, token2Decimals, j) +
                 UniQuotes(TierRun(cfg, chain, ROUTER_SCAN_STRATEGY, token1, token2, token1Decimals, token2Decimals, j).log)
            && Submitted(r.log) == LadderOpportunities(cfg, chain, token1, token2, token1Decimals, token2Decimals, j)
  {
    var tiers := TierRuns(cfg, chain, token1, token2, token1Decimals, token2Decimals);
    LadderRun(cfg, chain, token1, token2, token1Decimals, token2Decimals, j);
    InOrderSnoc(tiers, j);
    TierCompletes(cfg, chain, ROUTER_SCAN_STRATEGY, token1, token2, token1Decimals, token2Decimals, j);
    var before := InOrder(tiers[..j]);
    var tier := tiers[j];
    assert Submitted(tier.log) == [] by {
      TierSubmits(cfg, chain, ROUTER_SCAN_STRATEGY, token1, token2, token1Decimals, token2Decimals, j);
    }
    UniQuotesAppend(before.log, tier.log);
    SubmittedAppend(before.log, tier.log);
    ThrowSkipsRest(tiers, j + 1);
  }

  /** A valid pair whose quotes all resolve: the scan reads both decimals
      first, then asks for the eight quotes of the ladder in order, submits
      one flashloan per profitable tier in tier order, and does not throw. */
  lemma PairLadder(cfg: Config, chain: Oracles, pair: string)
    requires ValidPair(chain.isAddress, pair)
    requires forall i :: 0 <= i < TIER_COUNT ==>
      TierPrices(cfg, chain, Token1(pair), Token2(pair).value, chain.decimals(Token2(pair).value), i).Some?
    ensures var t1, t2 := Token1(pair), Token2(pair).value;
            var d1, d2 := chain.decimals(t1), chain.decimals(t2);
            var run := PairRun(cfg, chain, pair);
            && run.failure.None?
            && run.log[..2] == [ReadDecimals(t1), ReadDecimals(t2)]
            && UniQuotes(run.log) == LadderLegs(t1, t2, d2, TIER_COUNT)
            && Submitted(run.log) == LadderOpportunities(cfg, chain, t1, t2, d1, d2, TIER_COUNT)
  {
    var t1, t2 := Token1(pair), Token2(pair).value;
    var d1, d2 := chain.decimals(t1), chain.decimals(t2);
    var tiers := TierRuns(cfg, chain, t1, t2, d1, d2);
    var head := [ReadDecimals(t1), ReadDecimals(t2)];
    LadderRun(cfg, chain, t1, t2, d1, d2, TIER_COUNT);
    assert tiers[..TIER_COUNT] == tiers;
    var ladder := InOrder(tiers);
    ReadsQuoteNothing(t1, t2);
    UniQuotesAppend(head, ladder.log);
    SubmittedAppend(head, ladder.log);
    assert (head + ladder.log)[..2] == head;
  }
}
