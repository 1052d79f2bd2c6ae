/** Shared vocabulary of the arbitrage bot: optional values, the errors the
    scans throw, the configuration object and exact powers of ten. */
module Common {

  /** A JavaScript value that may be `undefined`. */
  datatype Option<T> = None | Some(value: T)

  /** A settled promise: resolved with a value or rejected with an error. */
  datatype Result<T> = Ok(value: T) | Err(error: Error)

  /** Every way the modelled code throws. */
  datatype Error =
    | InvalidPair(pair: string)          // a pair entry failing the address check
    | InvalidUniTradeType(code: int)     // `_tradeType` not EXACT_INPUT / EXACT_OUTPUT
    | InvalidAmountType(amountType: string)   // `_amountType` not "inputAmount" / "outputAmount"
    | InvalidBalTradeType(balTag: string)  // `_tradeType` not 'swapExactIn' / 'swapExactOut'
    | QuoteFailed                        // a pool fetch, router or contract read rejected
    | InvalidStrat(name: string)         // a configured strategy outside the allow-list
    | UnknownNetwork(chainId: int)       // the executor artefact has no address for the chain

  /** A Uniswap-style router: the factory and init-code hash that locate its pools. */
  datatype Venue = Venue(factory: string, initCodeHash: string)

  /** The configuration object read by every strategy. */
  datatype Config = Config(
    strats: seq<string>,
    profitThreshold: real,
    chainId: int,
    router1: Venue,
    router2: Venue,
    uniArbPairs: string,
    uniBalPairs: string)

  /** `10 ** n` as an exact integer, as BigNumber computes it. */
  function Pow10(n: nat): (r: nat)
    ensures r >= 1
  {
    if n == 0 then 1 else 10 * Pow10(n - 1)
  }

  /** `10 ** a * 10 ** b == 10 ** (a + b)`. */
  lemma {:induction false} Pow10Add(a: nat, b: nat)
    ensures Pow10(a) * Pow10(b) == Pow10(a + b)
    decreases a
  {
    if a > 0 {
      Pow10Add(a - 1, b);
      assert Pow10(a) * Pow10(b) == 10 * (Pow10(a - 1) * Pow10(b));
    }
  }
}

/** The named constants of `arb-js/src/util/constants.js` and of the Uniswap
    SDK's `TradeType` enumeration. */
module Constants {

  const STRAT_UNI_SUSHI: string := "uni_sushi"
  const STRAT_UNI_BAL: string := "uni_bal"
  const STRAT_CRV_LP: string := "crv_lp"

  const ARB_SRC_TYPE_UNI: string := "uni"
  const ARB_SRC_TYPE_BAL: string := "bal"
  const ARB_SRC_TYPE_CRV: string := "crv"

  /** The SDK numbers its trade types EXACT_INPUT = 0 and EXACT_OUTPUT = 1. */
  const EXACT_INPUT: int := 0
  const EXACT_OUTPUT: int := 1

  const INPUT_AMOUNT: string := "inputAmount"
  const OUTPUT_AMOUNT: string := "outputAmount"

  const SWAP_EXACT_IN: string := "swapExactIn"
  const SWAP_EXACT_OUT: string := "swapExactOut"

  /** The ABI types of the five parameters handed to `initFlashloan`. */
  const PARAM_TYPES: seq<string> := ["uint256", "address", "address", "uint256", "uint256"]

  /** The first capital tier, in whole units of the pair's second token. */
  const STARTING_CAPITAL: nat := 1000

  /** The number of capital tiers each scan walks. */
  const TIER_COUNT: nat := 4
}
