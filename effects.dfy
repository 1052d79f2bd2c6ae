/** What a scan asks of the chain and what it sends to it. Every remote read is
    an oracle fixed for the block being scanned; the scan's outward behaviour is
    the ordered log of the requests it makes and the transactions it submits,
    together with the error it throws, if any. */
module Effects {
  import opened Common

  /** The arguments of one `_getAmountsForUniTrade` call. */
  datatype UniQuery = UniQuery(
    tradeType: int,
    token1: string,
    token2: string,
    amount: int,
    amountType: string,
    isRouter1: bool)

  /** The arguments of one `_getAmountsForBalTrade` call. */
  datatype BalQuery = BalQuery(tradeType: string, token1: string, token2: string, amount: int)

  /** The five values ABI-encoded for the executor, in the order they are encoded. */
  datatype FlashParams = FlashParams(
    inputAmount: real,
    token1: string,
    token2: string,
    target: int,
    outputAmount: real)

  /** One `initFlashloan(token, amount, strategyAddress, encodedParams)` submission;
      `strategy` is the strategy name whose executor address is requested
      (`None` when that name is `undefined`) and `types` are the ABI types the
      parameters are encoded with. */
  datatype Flashloan = Flashloan(
    token: string,
    amount: int,
    strategy: Option<string>,
    types: seq<string>,
    params: FlashParams)

  datatype Event =
    | ReadDecimals(token: string)
    | UniQuoteCall(uq: UniQuery)
    | BalQuoteCall(bq: BalQuery)
    | Submit(call: Flashloan)

  /** What one piece of work did: the events in order and the error it threw. */
  datatype Run = Run(log: seq<Event>, failure: Option<Error>)

  /** The chain as seen during one block. */
  datatype Oracles = Oracles(
    isAddress: string -> bool,
    decimals: string -> nat,
    uniPool: (Venue, UniQuery) -> Option<real>,
    sor: BalQuery -> Option<real>)

  const Nothing: Run := Run([], None)

  /** `await a; await b;`: `b` runs only when `a` did not throw. */
  function Then(a: Run, b: Run): Run
  {
    if a.failure.Some? then a else Run(a.log + b.log, b.failure)
  }

  /** The runs of a sequence of awaited steps, in order, stopping at the first throw. */
  function InOrder(runs: seq<Run>): Run
  {
    if |runs| == 0 then Nothing else Then(InOrder(runs[..|runs| - 1]), runs[|runs| - 1])
  }

  /** Once a step has thrown, nothing after it happens: the outcome of the whole
      sequence is the outcome of the prefix that ends with that step. */
  lemma {:induction false} ThrowSkipsRest(runs: seq<Run>, k: nat)
    requires k <= |runs|
    requires InOrder(runs[..k]).failure.Some?
    ensures InOrder(runs) == InOrder(runs[..k])
    decreases |runs|
  {
    if k < |runs| {
      var n := |runs|;
      assert runs[..n - 1][..k] == runs[..k];
      ThrowSkipsRest(runs[..n - 1], k);
    } else {
      assert runs[..k] == runs;
    }
  }

  /** Appending one more step to a sequence that has not thrown. */
  lemma InOrderSnoc(runs: seq<Run>, k: nat)
    requires k < |runs|
    ensures InOrder(runs[..k + 1]) == Then(InOrder(runs[..k]), runs[k])
  {
    assert runs[..k + 1][..k] == runs[..k];
  }

  /** The transactions submitted, in order. */
  function Submitted(log: seq<Event>): seq<Flashloan>
  {
    if |log| == 0 then []
    else (if log[0].Submit? then [log[0].call] else []) + Submitted(log[1..])
  }

  /** The Uniswap quotes requested, in order. */
  function UniQuotes(log: seq<Event>): seq<UniQuery>
  {
    if |log| == 0 then []
    else (if log[0].UniQuoteCall? then [log[0].uq] else []) + UniQuotes(log[1..])
  }

  /** The Balancer quotes requested, in order. */
  function BalQuotes(log: seq<Event>): seq<BalQuery>
  {
    if |log| == 0 then []
    else (if log[0].BalQuoteCall? then [log[0].bq] else []) + BalQuotes(log[1..])
  }

  /** The projections of a one-event log. */
  lemma ProjectionsSingle(e: Event)
    ensures Submitted([e]) == if e.Submit? then [e.call] else []
    ensures UniQuotes([e]) == if e.UniQuoteCall? then [e.uq] else []
    ensures BalQuotes([e]) == if e.BalQuoteCall? then [e.bq] else []
  {
    assert [e][1..] == [];
  }

  lemma {:induction false} SubmittedAppend(a: seq<Event>, b: seq<Event>)
    ensures Submitted(a + b) == Submitted(a) + Submitted(b)
    decreases |a|
  {
    if |a| > 0 {
      assert (a + b)[1..] == a[1..] + b;
      SubmittedAppend(a[1..], b);
    } else {
      assert a + b == b;
    }
  }

  lemma {:induction false} UniQuotesAppend(a: seq<Event>, b: seq<Event>)
    ensures UniQuotes(a + b) == UniQuotes(a) + UniQuotes(b)
    decreases |a|
  {
    if |a| > 0 {
      assert (a + b)[1..] == a[1..] + b;
      UniQuotesAppend(a[1..], b);
    } else {
      assert a + b == b;
    }
  }

  lemma {:induction false} BalQuotesAppend(a: seq<Event>, b: seq<Event>)
    ensures BalQuotes(a + b) == BalQuotes(a) + BalQuotes(b)
    decreases |a|
  {
    if |a| > 0 {
      assert (a + b)[1..] == a[1..] + b;
      BalQuotesAppend(a[1..], b);
    } else {
      assert a + b == b;
    }
  }

  /** The three projections of a log distribute over concatenation. */
  lemma ProjectionsAppend(a: seq<Event>, b: seq<Event>)
    ensures Submitted(a + b) == Submitted(a) + Submitted(b)
    ensures UniQuotes(a + b) == UniQuotes(a) + UniQuotes(b)
    ensures BalQuotes(a + b) == BalQuotes(a) + BalQuotes(b)
  {
    SubmittedAppend(a, b);
    UniQuotesAppend(a, b);
    BalQuotesAppend(a, b);
  }

  /** A step after one that did not throw: its outcome is the second step's,
      and each projection of the log is the two projections in order. */
  lemma ThenLogs(a: Run, b: Run)
    requires a.failure.None?
    ensures Then(a, b).failure == b.failure
    ensures Submitted(Then(a, b).log) == Submitted(a.log) + Submitted(b.log)
    ensures UniQuotes(Then(a, b).log) == UniQuotes(a.log) + UniQuotes(b.log)
    ensures BalQuotes(Then(a, b).log) == BalQuotes(a.log) + BalQuotes(b.log)
  {
    ProjectionsAppend(a.log, b.log);
  }

  /** Reading the two decimals asks for no quote and submits nothing. */
  lemma ReadsQuoteNothing(token1: string, token2: string)
    ensures UniQuotes([ReadDecimals(token1), ReadDecimals(token2)]) == []
    ensures Submitted([ReadDecimals(token1), ReadDecimals(token2)]) == []
    ensures BalQuotes([ReadDecimals(token1), ReadDecimals(token2)]) == []
  {
    ProjectionsSingle(ReadDecimals(token1));
    ProjectionsSingle(ReadDecimals(token2));
    ProjectionsAppend([ReadDecimals(token1)], [ReadDecimals(token2)]);
    assert [ReadDecimals(token1), ReadDecimals(token2)] == [ReadDecimals(token1)] + [ReadDecimals(token2)];
  }
}
