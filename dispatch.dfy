/** `Arb` of `arb-js/src/arb/index.js`: the bot object that builds the router
    scan over a lazily created executor contract, runs the configured
    strategies on every new block, and prices a trade on a Balancer, Uniswap
    or Curve source. */
module Dispatch {
  import opened Common
  import opened Constants
  import opened Effects
  import UniRouter

  /** `isValidStrat`: a name is valid when it is one of the three strategies
      the constants module defines. */
  predicate IsValidStrat(strat: string)
  {
    strat == STRAT_UNI_SUSHI || strat == STRAT_UNI_BAL || strat == STRAT_CRV_LP
  }

  /** One pass of the block handler's loop: an invalid name throws, `uni_sushi`
      runs the router scan, and the other valid names do nothing. */
  function StratRun(cfg: Config, chain: Oracles, strat: string): Run
  {
    if !IsValidStrat(strat) then Run([], Some(InvalidStrat(strat)))
    else if strat == STRAT_UNI_SUSHI then UniRouter.ScanRun(cfg, chain)
    else Nothing
  }

  function StratRuns(cfg: Config, chain: Oracles, strats: seq<string>): (runs: seq<Run>)
    ensures |runs| == |strats|
    ensures forall k :: 0 <= k < |strats| ==> runs[k] == StratRun(cfg, chain, strats[k])
  {
    seq(|strats|, k requires 0 <= k < |strats| => StratRun(cfg, chain, strats[k]))
  }

  /** What the `data` handler does for one block header. */
  function BlockRun(cfg: Config, chain: Oracles): Run
  {
    InOrder(StratRuns(cfg, chain, cfg.strats))
  }

  /** How many times `name` occurs in `strats`. */
  function Occurrences(strats: seq<string>, name: string): nat
  {
    if |strats| == 0 then 0
    else Occurrences(strats[..|strats| - 1], name) + if strats[|strats| - 1] == name then 1 else 0
  }

  /** `n` router scans, one after the other, stopping at the first throw. */
  function Repeat(scan: Run, n: nat): Run
  {
    if n == 0 then Nothing else Then(Repeat(scan, n - 1), scan)
  }

  /** When every configured name is valid, a block runs the router scan once
      per `uni_sushi` entry and nothing else: `uni_bal` and `crv_lp` dispatch
      nothing. */
  lemma {:induction false} ValidStratsDispatch(cfg: Config, chain: Oracles, strats: seq<string>)
    requires forall k :: 0 <= k < |strats| ==> IsValidStrat(strats[k])
    ensures InOrder(StratRuns(cfg, chain, strats)) ==
            Repeat(UniRouter.ScanRun(cfg, chain), Occurrences(strats, STRAT_UNI_SUSHI))
  {
    if |strats| > 0 {
      var n := |strats| - 1;
      var runs := StratRuns(cfg, chain, strats);
      assert StratRuns(cfg, chain, strats[..n]) == runs[..n];
      ValidStratsDispatch(cfg, chain, strats[..n]);
      InOrderSnoc(runs, n);
      assert runs[..n + 1] == runs;
      var before := InOrder(runs[..n]);
      if strats[n] != STRAT_UNI_SUSHI {
        assert runs[n] == Nothing;
        assert before.log + [] == before.log;
      }
    }
  }

  /** In particular a block whose strategies are all valid and none of them
      `uni_sushi` does nothing at all. */
  lemma NoRouterStratNoWork(cfg: Config, chain: Oracles)
    requires forall k :: 0 <= k < |cfg.strats| ==> IsValidStrat(cfg.strats[k])
    requires STRAT_UNI_SUSHI !in cfg.strats
    ensures BlockRun(cfg, chain) == Nothing
  {
    ValidStratsDispatch(cfg, chain, cfg.strats);
    assert Occurrences(cfg.strats, STRAT_UNI_SUSHI) == 0 by {
      OccurrencesAbsent(cfg.strats, STRAT_UNI_SUSHI);
    }
  }

  lemma {:induction false} OccurrencesAbsent(strats: seq<string>, name: string)
    requires name !in strats
    ensures Occurrences(strats, name) == 0
  {
    if |strats| > 0 {
      var n := |strats| - 1;
      assert forall s :: s in strats[..n] ==> s in strats;
      OccurrencesAbsent(strats[..n], name);
    }
  }

  /** The first invalid name throws, and the strategies after it are not
      visited in that block. */
  lemma InvalidStratStopsBlock(cfg: Config, chain: Oracles, k: nat)
    requires k < |cfg.strats|
    requires !IsValidStrat(cfg.strats[k])
    requires InOrder(StratRuns(cfg, chain, cfg.strats)[..k]).failure.None?
    ensures BlockRun(cfg, chain) ==
              Run(InOrder(StratRuns(cfg, chain, cfg.strats)[..k]).log, Some(InvalidStrat(cfg.strats[k])))
  {
    var runs := StratRuns(cfg, chain, cfg.strats);
    InOrderSnoc(runs, k);
    ThrowSkipsRest(runs, k + 1);
  }

  /** The Curve coin lookup `underlying_coins(index)`: the address at an
      index, `None` when the call fails. */
  type CoinProbe = nat -> Option<string>

  /** The first index from `from` on at which the lookup fails; `bound` is an
      index at which it is known to fail (the registry is finite). */
  function FirstGap(probe: CoinProbe, from: nat, bound: nat): (gap: nat)
    requires from <= bound && probe(bound).None?
    ensures from <= gap <= bound && probe(gap).None?
    ensures forall k :: from <= k < gap ==> probe(k).Some?
    decreases bound - from
  {
    if probe(from).None? then from else FirstGap(probe, from + 1, bound)
  }

  /** Any index whose lookup fails while all those before it succeed is the first gap. */
  lemma {:induction false} FirstGapUnique(probe: CoinProbe, from: nat, bound: nat, gap: nat)
    requires from <= gap <= bound && probe(bound).None? && probe(gap).None?
    requires forall k :: from <= k < gap ==> probe(k).Some?
    ensures FirstGap(probe, from, bound) == gap
    decreases gap - from
  {
    if from < gap {
      FirstGapUnique(probe, from + 1, bound, gap);
    }
  }

  /** The map built from the first `n` lookups: each address to its index,
      a later index overwriting an earlier one. */
  function CoinMap(probe: CoinProbe, n: nat): map<string, nat>
    requires forall k :: 0 <= k < n ==> probe(k).Some?
  {
    if n == 0 then map[] else CoinMap(probe, n - 1)[probe(n - 1).value := n - 1]
  }

  /** The map holds exactly the addresses returned at indices below `n`. */
  lemma {:induction false} CoinMapKeys(probe: CoinProbe, n: nat)
    requires forall k :: 0 <= k < n ==> probe(k).Some?
    ensures forall a :: a in CoinMap(probe, n) <==> exists k :: 0 <= k < n && probe(k) == Some(a)
  {
    if n > 0 {
      CoinMapKeys(probe, n - 1);
      var last := probe(n - 1).value;
      assert probe(n - 1) == Some(last);
      forall a | a in CoinMap(probe, n) && a != last
        ensures exists k :: 0 <= k < n && probe(k) == Some(a)
      {
        var k :| 0 <= k < n - 1 && probe(k) == Some(a);
      }
    }
  }

  /** Each address is mapped to the last index below `n` that returned it. */
  lemma {:induction false} CoinMapIndex(probe: CoinProbe, n: nat)
    requires forall k :: 0 <= k < n ==> probe(k).Some?
    ensures forall a :: a in CoinMap(probe, n) ==>
              CoinMap(probe, n)[a] < n && probe(CoinMap(probe, n)[a]) == Some(a) &&
              forall j :: CoinMap(probe, n)[a] < j < n ==> probe(j) != Some(a)
  {
    if n > 0 {
      CoinMapIndex(probe, n - 1);
      var last := probe(n - 1).value;
      assert probe(n - 1) == Some(last);
    }
  }

  /** What `_getUnderlyingCurveCoinAddresses` returns: the map of every
      lookup before the first failing one. */
  function CurveCoins(probe: CoinProbe, bound: nat): map<string, nat>
    requires probe(bound).None?
  {
    CoinMap(probe, FirstGap(probe, 0, bound))
  }

  /** `_getUnderlyingCurveCoinAddresses`: probe indices 0, 1, 2, ... until a
      lookup fails, recording each address against its index. */
  method UnderlyingCurveCoinAddresses(probe: CoinProbe, bound: nat) returns (coins: map<string, nat>)
    requires probe(bound).None?
    ensures coins == CurveCoins(probe, bound)
  {
    var isEndOfCoins := false;
    var index := 0;
    coins := map[];
    while !isEndOfCoins
      invariant index <= bound
      invariant forall k :: 0 <= k < index ==> probe(k).Some?
      invariant coins == CoinMap(probe, index)
      invariant isEndOfCoins ==> probe(index).None?
      decreases bound - index, !isEndOfCoins
    {
      match probe(index) {
        case Some(address) =>
          coins := coins[address := index];
          index := index + 1;
        case None =>
          isEndOfCoins := true;
      }
    }
    FirstGapUnique(probe, 0, bound, index);
  }

  /** The source contract `_getLastPrice` is handed, as the reads it answers. */
  datatype Source = Source(
    spotPrice: (string, string) -> Option<real>,            // Balancer `getSpotPrice`
    executionPrice: (string, string, int) -> Option<real>,  // Uniswap EXACT_OUTPUT trade execution price
    underlyingCoin: CoinProbe,                               // Curve `underlying_coins`
    coinBound: nat,                                          // an index past the last Curve coin
    getDyUnderlying: (Option<nat>, Option<nat>, int) -> Option<real>)  // Curve `get_dy_underlying`

  /** `coins[token]`: the index, or `undefined` for an address not in the map. */
  function Lookup(coins: map<string, nat>, token: string): Option<nat>
  {
    if token in coins then Some(coins[token]) else None
  }

  function Settle(v: Option<real>): Result<Option<real>>
  {
    match v
    case Some(p) => Ok(Some(p))
    case None => Err(QuoteFailed)
  }

  /** `_getLastPrice` with the Curve price read as intended,
      `get_dy_underlying(...).call()`: dispatch on the source type; an unknown
      type returns `undefined` (`Ok(None)`). Only a Curve source has its coin
      registry probed, so only a Curve source needs it to be finite. */
  function LastPrice(src: Source, srcType: string, token1: string, token2: string, inputAmount: int): (r: Result<Option<real>>)
    requires srcType == ARB_SRC_TYPE_CRV ==> src.underlyingCoin(src.coinBound).None?
    ensures r == Ok(None) <==>
              srcType != ARB_SRC_TYPE_BAL && srcType != ARB_SRC_TYPE_UNI && srcType != ARB_SRC_TYPE_CRV
    ensures srcType == ARB_SRC_TYPE_BAL ==>
              (r.Ok? <==> src.spotPrice(token1, token2).Some?) &&
              (r.Ok? ==> r.value == src.spotPrice(token1, token2))
    ensures srcType == ARB_SRC_TYPE_UNI ==>
              (r.Ok? <==> src.executionPrice(token1, token2, inputAmount).Some?) &&
              (r.Ok? ==> r.value == src.executionPrice(token1, token2, inputAmount))
    ensures srcType == ARB_SRC_TYPE_CRV ==>
              var coins := CurveCoins(src.underlyingCoin, src.coinBound);
              var price := src.getDyUnderlying(Lookup(coins, token1), Lookup(coins, token2), inputAmount);
              (r.Ok? <==> price.Some?) && (r.Ok? ==> r.value == price)
  {
    if srcType == ARB_SRC_TYPE_BAL then Settle(src.spotPrice(token1, token2))
    else if srcType == ARB_SRC_TYPE_UNI then Settle(src.executionPrice(token1, token2, inputAmount))
    else if srcType == ARB_SRC_TYPE_CRV then
      var coins := CurveCoins(src.underlyingCoin, src.coinBound);
      Settle(src.getDyUnderlying(Lookup(coins, token1), Lookup(coins, token2), inputAmount))
    else Ok(None)
  }

  /** On a Curve source the price is asked for the two tokens' coin indices:
      the last index below the first failed lookup at which each token was
      returned, or `undefined` for a token the pool does not list. */
  lemma CurvePriceIndices(src: Source, token1: string, token2: string, inputAmount: int)
    requires src.underlyingCoin(src.coinBound).None?
    ensures var gap := FirstGap(src.underlyingCoin, 0, src.coinBound);
            var coins := CurveCoins(src.underlyingCoin, src.coinBound);
            && LastPrice(src, ARB_SRC_TYPE_CRV, token1, token2, inputAmount) ==
                 Settle(src.getDyUnderlying(Lookup(coins, token1), Lookup(coins, token2), inputAmount))
            && (forall t :: Lookup(coins, t).None? <==> forall k :: 0 <= k < gap ==> src.underlyingCoin(k) != Some(t))
            && (forall t :: Lookup(coins, t).Some? ==>
                  Lookup(coins, t).value < gap && src.underlyingCoin(Lookup(coins, t).value) == Some(t))
  {
    var gap := FirstGap(src.underlyingCoin, 0, src.coinBound);
    CoinMapKeys(src.underlyingCoin, gap);
    CoinMapIndex(src.underlyingCoin, gap);
  }

  /** What `_getLastPrice` resolves to as written: a price, or, on a Curve
      source, the `get_dy_underlying(i, j, amount)` method object itself, which
      is never sent because `.call()` is missing (awaiting it yields the object). */
  datatype LastQuote = Price(value: real) | UnsentCurveCall(i: Option<nat>, j: Option<nat>, amount: int)

  function AsPrice(r: Result<Option<real>>): Result<Option<LastQuote>>
  {
    match r
    case Err(e) => Err(e)
    case Ok(None) => Ok(None)
    case Ok(Some(p)) => Ok(Some(Price(p)))
  }

  /** `_getLastPrice` as written: the Balancer and Uniswap branches as in
      `LastPrice`; the Curve branch enumerates the coins and returns the
      unsent call on their indices. */
  function LastPriceAsWritten(src: Source, srcType: string, token1: string, token2: string, inputAmount: int): (r: Result<Option<LastQuote>>)
    requires srcType == ARB_SRC_TYPE_CRV ==> src.underlyingCoin(src.coinBound).None?
  {
    if srcType == ARB_SRC_TYPE_CRV then
      var coins := CurveCoins(src.underlyingCoin, src.coinBound);
      Ok(Some(UnsentCurveCall(Lookup(coins, token1), Lookup(coins, token2), inputAmount)))
    else AsPrice(LastPrice(src, srcType, token1, token2, inputAmount))
  }

  /** As written, a Curve source is never priced: the result never fails, is
      never a price, does not depend on what `get_dy_underlying` would answer,
      and carries the same indices the corrected read asks the price for.
      The other source types behave as in `LastPrice`. */
  lemma AsWrittenCurveUnpriced(src: Source, src': Source, srcType: string, token1: string, token2: string, inputAmount: int)
    requires srcType == ARB_SRC_TYPE_CRV ==> src.underlyingCoin(src.coinBound).None?
    requires src'.underlyingCoin == src.underlyingCoin && src'.coinBound == src.coinBound
    ensures srcType == ARB_SRC_TYPE_CRV ==>
              var coins := CurveCoins(src.underlyingCoin, src.coinBound);
              var r := LastPriceAsWritten(src, srcType, token1, token2, inputAmount);
              && r == Ok(Some(UnsentCurveCall(Lookup(coins, token1), Lookup(coins, token2), inputAmount)))
              && r == LastPriceAsWritten(src', srcType, token1, token2, inputAmount)
              && LastPrice(src, srcType, token1, token2, inputAmount) ==
                   Settle(src.getDyUnderlying(r.value.value.i, r.value.value.j, r.value.value.amount))
    ensures srcType != ARB_SRC_TYPE_CRV ==>
              var r := LastPriceAsWritten(src, srcType, token1, token2, inputAmount);
              var fixed := LastPrice(src, srcType, token1, token2, inputAmount);
              && (r.Ok? <==> fixed.Ok?)
              && (r.Err? ==> r.error == fixed.error)
              && (r.Ok? ==> (r.value.None? <==> fixed.value.None?))
              && (fixed.Ok? && fixed.value.Some? ==> r == Ok(Some(Price(fixed.value.value))))
  {
    if srcType == ARB_SRC_TYPE_CRV {
      CurvePriceIndices(src, token1, token2, inputAmount);
    }
  }

  /** The executor contract handle `new web3.eth.Contract(abi_arb, address)`. */
  class Contract {
    const address: string

    constructor (address: string)
      ensures this.address == address
    {
      this.address := address;
    }
  }

  /** The bot object: its configuration, the memoized executor contract and
      the router scan built over it. */
  class Arb {
    const cfg: Config
    var arbInstance: Contract?
    /** The executor the router scan was built with; null until `arb` runs. */
    var uniRouter: Contract?
    /** How many executor contracts have been created. */
    ghost var constructions: nat

    ghost predicate Valid()
      reads this
    {
      constructions == if arbInstance == null then 0 else 1
    }

    constructor (cfg: Config)
      ensures this.cfg == cfg && arbInstance == null && uniRouter == null && Valid()
    {
      this.cfg := cfg;
      arbInstance := null;
      uniRouter := null;
      constructions := 0;
    }

    /** `_getArbContractInstance`: create the executor contract at the
        address the artefact records for the chain, once; every later call
        returns that same instance. A chain the artefact does not list
        throws. */
    method GetArbContractInstance(networks: map<int, string>) returns (r: Result<Contract>)
      requires Valid()
      modifies this
      ensures Valid() && uniRouter == old(uniRouter)
      ensures old(arbInstance) != null ==>
                r.Ok? && r.value == old(arbInstance) && arbInstance == old(arbInstance) && constructions == old(constructions)
      ensures old(arbInstance) == null && cfg.chainId in networks ==>
                r.Ok? && fresh(r.value) && r.value.address == networks[cfg.chainId] &&
                arbInstance == r.value && constructions == 1
      ensures old(arbInstance) == null && cfg.chainId !in networks ==>
                r == Err(UnknownNetwork(cfg.chainId)) && arbInstance == null && constructions == 0
    {
      if arbInstance == null {
        if cfg.chainId !in networks {
          return Err(UnknownNetwork(cfg.chainId));
        }
        arbInstance := new Contract(networks[cfg.chainId]);
        constructions := constructions + 1;
      }
      r := Ok(arbInstance);
    }

    /** `this.arb`: build the router scan over the executor contract; the
        block subscription it then opens is not modelled. */
    method Start(networks: map<int, string>) returns (r: Result<Contract>)
      requires Valid()
      modifies this
      ensures Valid()
      ensures old(arbInstance) != null ==> r.Ok? && r.value == old(arbInstance) && constructions == old(constructions)
      ensures old(arbInstance) == null && cfg.chainId in networks ==>
                r.Ok? && fresh(r.value) && r.value.address == networks[cfg.chainId] && constructions == 1
      ensures old(arbInstance) == null && cfg.chainId !in networks ==>
                r == Err(UnknownNetwork(cfg.chainId)) && uniRouter == old(uniRouter) &&
                arbInstance == null && constructions == 0
      ensures r.Ok? ==> uniRouter == r.value && arbInstance == r.value
      ensures r.Err? ==> r == Err(UnknownNetwork(cfg.chainId)) && uniRouter == old(uniRouter) && arbInstance == null
    {
      r := GetArbContractInstance(networks);
      if r.Ok? {
        uniRouter := r.value;
      }
    }

    /** The `data` handler for one block header: the configured strategies in
        order; the first invalid one throws. */
    method OnBlock(chain: Oracles) returns (run: Run)
      requires uniRouter != null
      ensures run == BlockRun(cfg, chain)
    {
      ghost var runs := StratRuns(cfg, chain, cfg.strats);
      run := Nothing;
      var k := 0;
      while k < |cfg.strats| && run.failure.None?
        invariant 0 <= k <= |cfg.strats|
        invariant run == InOrder(runs[..k])
      {
        var strat := cfg.strats[k];
        var step := Nothing;
        if !IsValidStrat(strat) {
          step := Run([], Some(InvalidStrat(strat)));
        } else if strat == STRAT_UNI_SUSHI {
          step := UniRouter.Arb(cfg, chain);
        }
        InOrderSnoc(runs, k);
        run := Then(run, step);
        k := k + 1;
      }
      if run.failure.Some? {
        ThrowSkipsRest(runs, k);
      } else {
        assert runs[..k] == runs;
      }
    }
  }
}
