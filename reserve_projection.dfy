/** The two-leg swap bundle of `buySellWithBundle` (src/txHandler.ts:234-516): each leg's input
    and output sides, which side is fixed, the amounts written into the swap instruction, and the
    local projection of the pool's reserves that the second leg is quoted against. */
module ReserveProjection {
  import opened Wrappers
  import opened Types
  import AmmMath

  /** `SwapSide` of the SDK: whether the input or the output amount is exact. */
  datatype SwapSide = In | Out

  /** Buying one token of the pool spends the other. */
  function InputToken(buy: TokenType): TokenType
  {
    Other(buy)
  }

  /** The fixed side of a leg that buys `buy` when the user's amount is denominated in
      `amountType`. */
  function FixedSide(buy: TokenType, amountType: TokenType): (side: SwapSide)
    ensures side == In <==> amountType == InputToken(buy)
    ensures side == Out <==> amountType == buy
  {
    if buy == Base then
      (if amountType == Base then Out else In)
    else
      (if amountType == Base then In else Out)
  }

  /** `LiquidityPoolInfo` as the core uses it: raw reserves, LP supply and decimals. */
  datatype PoolState = PoolState(
    baseReserve: nat, quoteReserve: nat, lpSupply: nat,
    baseDecimals: nat, quoteDecimals: nat, lpDecimals: nat)

  function Reserve(p: PoolState, t: TokenType): nat
  {
    if t == Base then p.baseReserve else p.quoteReserve
  }

  function Product(p: PoolState): nat
  {
    p.baseReserve * p.quoteReserve
  }

  /** What the SDK's quote (an estimate) returns for the side that is not fixed: the expected amount and its
      slippage bound (`amountOut`/`minAmountOut` of `Liquidity.computeAmountOut` for a fixed
      input, `amountIn`/`maxAmountIn` of `Liquidity.computeAmountIn` for a fixed output). */
  datatype Estimate = Estimate(expected: nat, bound: nat)

  /** The SDK's quoting, not interpreted here: fixed side, token bought, fixed raw amount and
      the pool state it is computed against give the quote. The slippage is folded in. */
  type Quoter = (SwapSide, TokenType, nat, PoolState) -> Estimate

  /** One leg. `amountIn`/`amountOut` go into the swap instruction; `expectedIn`/`expectedOut`
      (the source's `_inAmount`/`_outAmount`) drive the projection; `quotedOn` is the pool the
      quote was computed against. */
  datatype SwapLeg = SwapLeg(
    buy: TokenType, fixedSide: SwapSide,
    amountIn: nat, amountOut: nat,
    expectedIn: nat, expectedOut: nat,
    quotedOn: PoolState)

  /** The token whose amount a leg fixes. */
  function FixedToken(leg: SwapLeg): TokenType
  {
    if leg.fixedSide == In then InputToken(leg.buy) else leg.buy
  }

  /** The fixed amount as the swap instruction carries it. */
  function FixedAmount(leg: SwapLeg): nat
  {
    if leg.fixedSide == In then leg.amountIn else leg.amountOut
  }

  /** Set-up of one leg on the pool state `pool`. */
  function QuoteLeg(pool: PoolState, buy: TokenType, amountType: TokenType, amount: nat, quoter: Quoter)
    : (leg: SwapLeg)
    ensures leg.buy == buy && leg.quotedOn == pool
    // the user's amount is the exact one, in the token it is denominated in
    ensures FixedToken(leg) == amountType && FixedAmount(leg) == amount
    ensures leg.fixedSide == In ==> leg.expectedIn == amount
    ensures leg.fixedSide == Out ==> leg.expectedOut == amount
    // the other side: the slippage bound in the instruction, the expected amount in the projection
    ensures var q := quoter(leg.fixedSide, buy, amount, pool);
            (leg.fixedSide == In ==> leg.amountOut == q.bound && leg.expectedOut == q.expected) &&
            (leg.fixedSide == Out ==> leg.amountIn == q.bound && leg.expectedIn == q.expected)
  {
    var side := FixedSide(buy, amountType);
    var q := quoter(side, buy, amount, pool);
    if side == In then
      SwapLeg(buy, In, amount, q.bound, amount, q.expected, pool)
    else
      SwapLeg(buy, Out, q.bound, amount, q.expected, amount, pool)
  }

  /** The source does not check that the output reserve covers the leg's expected output;
      a projection is only defined when it does. */
  predicate CanApply(p: PoolState, leg: SwapLeg)
  {
    leg.expectedOut <= Reserve(p, leg.buy)
  }

  /** The in-place patch after a leg: the input reserve grows by the expected input, the output
      reserve shrinks by the expected output, nothing else changes. */
  function Project(p: PoolState, leg: SwapLeg): (q: PoolState)
    requires CanApply(p, leg)
    ensures Reserve(q, InputToken(leg.buy)) == Reserve(p, InputToken(leg.buy)) + leg.expectedIn
    ensures Reserve(q, leg.buy) == Reserve(p, leg.buy) - leg.expectedOut
    ensures q.lpSupply == p.lpSupply && q.lpDecimals == p.lpDecimals
    ensures q.baseDecimals == p.baseDecimals && q.quoteDecimals == p.quoteDecimals
  {
    if InputToken(leg.buy) == Quote then
      p.(quoteReserve := p.quoteReserve + leg.expectedIn, baseReserve := p.baseReserve - leg.expectedOut)
    else
      p.(baseReserve := p.baseReserve + leg.expectedIn, quoteReserve := p.quoteReserve - leg.expectedOut)
  }

  lemma ProductBySides(p: PoolState, t: TokenType)
    ensures Product(p) == Reserve(p, InputToken(t)) * Reserve(p, t)
  {
  }

  /** Partner of the projection: when the leg's expected output is no more than the fee-free
      constant-product output for its expected input, the projection is defined, keeps a
      non-empty output reserve non-empty, and never lowers the product of the reserves. */
  lemma ProjectionKeepsConstantProduct(p: PoolState, leg: SwapLeg)
    requires Reserve(p, InputToken(leg.buy)) + leg.expectedIn > 0
    requires leg.expectedOut <=
             AmmMath.CalculateOutputAmount(leg.expectedIn, Reserve(p, InputToken(leg.buy)), Reserve(p, leg.buy)).value
    ensures CanApply(p, leg)
    ensures Product(Project(p, leg)) >= Product(p)
    ensures Reserve(p, InputToken(leg.buy)) > 0 && Reserve(p, leg.buy) > 0 ==> Reserve(Project(p, leg), leg.buy) > 0
  {
    var inR, outR := Reserve(p, InputToken(leg.buy)), Reserve(p, leg.buy);
    var cp := AmmMath.CalculateOutputAmount(leg.expectedIn, inR, outR).value;
    AmmMath.ConstantProductNonDecreasing(leg.expectedIn, inR, outR);
    assert CanApply(p, leg);
    var q := Project(p, leg);
    assert (inR + leg.expectedIn) * (outR - cp) <= (inR + leg.expectedIn) * (outR - leg.expectedOut) by {
      AmmMath.MulMonotone(outR - cp, outR - leg.expectedOut, inR + leg.expectedIn);
      AmmMath.MulComm(outR - cp, inR + leg.expectedIn);
      AmmMath.MulComm(outR - leg.expectedOut, inR + leg.expectedIn);
    }
    ProductBySides(p, leg.buy);
    ProductBySides(q, leg.buy);
    if inR > 0 && outR > 0 {
      AmmMath.OutputBelowReserve(leg.expectedIn, inR, outR);
    }
  }

  // ---------------------------------------------------------------------------
  // The bundle of two legs
  // ---------------------------------------------------------------------------

  /** The command's input: the amount (raw units of `amountTokenType`), which token it is
      denominated in, and which token the first leg buys. */
  datatype BuySellInput = BuySellInput(amount: nat, amountTokenType: TokenType, firstBuyTokenType: TokenType)

  /** Instructions of a leg's transaction: creation of the user's associated token account for
      one of the pool's mints, and the swap built by `buyFromPool` from the leg's amounts. */
  datatype Instruction =
    | CreateAta(mint: TokenType)
    | Swap(buy: TokenType, fixedSide: SwapSide, amountIn: nat, amountOut: nat)

  datatype Transaction = Transaction(instructions: seq<Instruction>)

  function SwapOf(leg: SwapLeg): Instruction
  {
    Swap(leg.buy, leg.fixedSide, leg.amountIn, leg.amountOut)
  }

  /** The account-creation instructions for the user's missing token accounts, base first. */
  function PreInstructions(baseAtaExists: bool, quoteAtaExists: bool): (ixs: seq<Instruction>)
    ensures |ixs| <= 2
    ensures CreateAta(Base) in ixs <==> !baseAtaExists
    ensures CreateAta(Quote) in ixs <==> !quoteAtaExists
    ensures forall i :: 0 <= i < |ixs| ==> ixs[i].CreateAta?
    // one per missing account, base before quote
    ensures |ixs| == (if baseAtaExists then 0 else 1) + (if quoteAtaExists then 0 else 1)
    ensures !baseAtaExists ==> ixs[0] == CreateAta(Base)
    ensures !quoteAtaExists ==> ixs[|ixs| - 1] == CreateAta(Quote)
  {
    (if baseAtaExists then [] else [CreateAta(Base)]) + (if quoteAtaExists then [] else [CreateAta(Quote)])
  }

  function FirstLeg(pool: PoolState, input: BuySellInput, quoter: Quoter): SwapLeg
  {
    QuoteLeg(pool, input.firstBuyTokenType, input.amountTokenType, input.amount, quoter)
  }

  /** The second leg buys the other token and is quoted on the pool the first leg leaves. */
  function SecondLeg(pool: PoolState, input: BuySellInput, quoter: Quoter): SwapLeg
    requires CanApply(pool, FirstLeg(pool, input, quoter))
  {
    QuoteLeg(Project(pool, FirstLeg(pool, input, quoter)), Other(input.firstBuyTokenType),
             input.amountTokenType, input.amount, quoter)
  }

  /** Neither projection drives a reserve below zero. */
  predicate Feasible(pool: PoolState, input: BuySellInput, quoter: Quoter)
  {
    CanApply(pool, FirstLeg(pool, input, quoter)) &&
    CanApply(Project(pool, FirstLeg(pool, input, quoter)), SecondLeg(pool, input, quoter))
  }

  /** The two transactions of the bundle, in order. */
  function PlannedTransactions(pool: PoolState, input: BuySellInput, quoter: Quoter,
                               baseAtaExists: bool, quoteAtaExists: bool): seq<Transaction>
    requires Feasible(pool, input, quoter)
  {
    [Transaction(PreInstructions(baseAtaExists, quoteAtaExists) + [SwapOf(FirstLeg(pool, input, quoter))]),
     Transaction([SwapOf(SecondLeg(pool, input, quoter))])]
  }

  /** The pool state after both projections. */
  function PlannedPool(pool: PoolState, input: BuySellInput, quoter: Quoter): PoolState
    requires Feasible(pool, input, quoter)
  {
    Project(Project(pool, FirstLeg(pool, input, quoter)), SecondLeg(pool, input, quoter))
  }

  /** The second leg buys what the first leg spent, spends what the first leg bought, is quoted
      on the reserves the first leg left, and fixes the opposite side: both legs fix the same
      amount of the same token. */
  lemma SecondLegReversesFirst(pool: PoolState, input: BuySellInput, quoter: Quoter)
    requires Feasible(pool, input, quoter)
    ensures var l1, l2 := FirstLeg(pool, input, quoter), SecondLeg(pool, input, quoter);
            && l2.buy == InputToken(l1.buy) && InputToken(l2.buy) == l1.buy
            && l2.quotedOn == Project(pool, l1)
            && l2.fixedSide != l1.fixedSide
            && FixedToken(l1) == FixedToken(l2) == input.amountTokenType
            && FixedAmount(l1) == FixedAmount(l2) == input.amount
  {
  }

  /** Over the whole bundle the reserve of the token the amount is denominated in returns to
      where it was: one leg adds the amount to it and the other takes the amount out. The other
      reserve loses what the fixed-input leg bought and gains what the fixed-output leg paid. */
  lemma {:induction false} BundleRestoresFixedReserve(pool: PoolState, input: BuySellInput, quoter: Quoter)
    requires Feasible(pool, input, quoter)
    ensures var t := input.amountTokenType;
            var l1, l2 := FirstLeg(pool, input, quoter), SecondLeg(pool, input, quoter);
            var final := PlannedPool(pool, input, quoter);
            var (inLeg, outLeg) := if l1.fixedSide == In then (l1, l2) else (l2, l1);
            && Reserve(final, t) == Reserve(pool, t)
            && Reserve(final, Other(t)) + inLeg.expectedOut == Reserve(pool, Other(t)) + outLeg.expectedIn
  {
    var t := input.amountTokenType;
    var l1, l2 := FirstLeg(pool, input, quoter), SecondLeg(pool, input, quoter);
    var mid := Project(pool, l1);
    if l1.fixedSide == In {
      // leg 1 pays `amount` of t into the pool; leg 2 takes `amount` of t out
      assert InputToken(l1.buy) == t && l2.buy == t && l2.fixedSide == Out;
      assert Reserve(mid, t) == Reserve(pool, t) + input.amount;
    } else {
      assert l1.buy == t && InputToken(l2.buy) == t && l2.fixedSide == In;
      assert Reserve(mid, t) == Reserve(pool, t) - input.amount;
    }
  }

  /** Account creation happens only in the first transaction, only for missing accounts, and
      the second transaction holds only its swap. */
  lemma AccountCreationOnlyInFirstTransaction(pool: PoolState, input: BuySellInput, quoter: Quoter,
                                              baseAtaExists: bool, quoteAtaExists: bool)
    requires Feasible(pool, input, quoter)
    ensures var txs := PlannedTransactions(pool, input, quoter, baseAtaExists, quoteAtaExists);
            && |txs| == 2
            && |txs[0].instructions| <= 3
            && (forall m :: CreateAta(m) in txs[0].instructions ==> !(if m == Base then baseAtaExists else quoteAtaExists))
            && (forall i :: 0 <= i < |txs[1].instructions| ==> !txs[1].instructions[i].CreateAta?)
            && txs[0].instructions[|txs[0].instructions| - 1] == SwapOf(FirstLeg(pool, input, quoter))
  {
    var pre := PreInstructions(baseAtaExists, quoteAtaExists);
    var txs := PlannedTransactions(pool, input, quoter, baseAtaExists, quoteAtaExists);
    forall m | CreateAta(m) in txs[0].instructions
      ensures !(if m == Base then baseAtaExists else quoteAtaExists)
    {
      assert CreateAta(m) in pre;
    }
  }

  // ---------------------------------------------------------------------------
  // The pool record, patched in place
  // ---------------------------------------------------------------------------

  /** The `poolInfo` record whose reserves the source overwrites after each leg. */
  class PoolInfo {
    var baseReserve: nat
    var quoteReserve: nat
    const lpSupply: nat
    const baseDecimals: nat
    const quoteDecimals: nat
    const lpDecimals: nat

    /** The record built from the fetched vault, mint and pool-key data. */
    constructor (fetched: PoolState)
      ensures State() == fetched
    {
      baseReserve := fetched.baseReserve;
      quoteReserve := fetched.quoteReserve;
      lpSupply := fetched.lpSupply;
      baseDecimals := fetched.baseDecimals;
      quoteDecimals := fetched.quoteDecimals;
      lpDecimals := fetched.lpDecimals;
    }

    function State(): PoolState
      reads this
    {
      PoolState(baseReserve, quoteReserve, lpSupply, baseDecimals, quoteDecimals, lpDecimals)
    }

    /** Overwrites the two reserves with their projection after `leg`. */
    method ApplyLeg(leg: SwapLeg)
      requires CanApply(State(), leg)
      modifies this
      ensures State() == Project(old(State()), leg)
    {
      var currentBaseLiquidity, currentQuoteLiquidity := baseReserve, quoteReserve;
      if InputToken(leg.buy) == Quote {
        quoteReserve := currentQuoteLiquidity + leg.expectedIn;
        baseReserve := currentBaseLiquidity - leg.expectedOut;
      } else {
        baseReserve := currentBaseLiquidity + leg.expectedIn;
        quoteReserve := currentQuoteLiquidity - leg.expectedOut;
      }
    }
  }

  /** One of the two blocks: quote a leg buying `buy` on the record's current reserves, build
      its transaction after `preIxs`, then patch the record. */
  method BuildLeg(pool: PoolInfo, buy: TokenType, input: BuySellInput, quoter: Quoter, preIxs: seq<Instruction>)
    returns (tx: Transaction, leg: SwapLeg)
    requires CanApply(pool.State(), QuoteLeg(pool.State(), buy, input.amountTokenType, input.amount, quoter))
    modifies pool
    ensures leg == QuoteLeg(old(pool.State()), buy, input.amountTokenType, input.amount, quoter)
    ensures tx == Transaction(preIxs + [SwapOf(leg)])
    ensures pool.State() == Project(old(pool.State()), leg)
  {
    leg := QuoteLeg(pool.State(), buy, input.amountTokenType, input.amount, quoter);
    tx := Transaction(preIxs + [SwapOf(leg)]);
    pool.ApplyLeg(leg);
  }

  /** `buySellWithBundle` up to the hand-off to the bundle sender: the two signed transactions in
      order, with the record's reserves projected past both legs. */
  method BuySellWithBundle(pool: PoolInfo, input: BuySellInput, quoter: Quoter,
                           baseAtaExists: bool, quoteAtaExists: bool)
    returns (txs: seq<Transaction>)
    requires Feasible(pool.State(), input, quoter)
    modifies pool
    ensures txs == PlannedTransactions(old(pool.State()), input, quoter, baseAtaExists, quoteAtaExists)
    ensures pool.State() == PlannedPool(old(pool.State()), input, quoter)
  {
    ghost var fetched := pool.State();
    var preIxs: seq<Instruction> := [];
    if !baseAtaExists {
      preIxs := preIxs + [CreateAta(Base)];
    }
    if !quoteAtaExists {
      preIxs := preIxs + [CreateAta(Quote)];
    }
    assert preIxs == PreInstructions(baseAtaExists, quoteAtaExists);
    txs := [];
    var firstBuyTokenType := input.firstBuyTokenType;
    var tx, leg := BuildLeg(pool, firstBuyTokenType, input, quoter, preIxs);
    txs := txs + [tx];
    firstBuyTokenType := Other(firstBuyTokenType);
    assert pool.State() == Project(fetched, FirstLeg(fetched, input, quoter));
    tx, leg := BuildLeg(pool, firstBuyTokenType, input, quoter, []);
    assert leg == SecondLeg(fetched, input, quoter);
    assert tx.instructions == [SwapOf(leg)];
    txs := txs + [tx];
  }

  // ---------------------------------------------------------------------------
  // A worked example
  // ---------------------------------------------------------------------------

  /** Fee-free constant-product quotes with no slippage: the output for a fixed input, and the
      least input that yields a fixed output. Used for the example below. */
  function FeeFreeQuote(side: SwapSide, buy: TokenType, amount: nat, p: PoolState): Estimate
  {
    var inR, outR := Reserve(p, InputToken(buy)), Reserve(p, buy);
    if side == In then
      var out := AmmMath.CalculateOutputAmount(amount, inR, outR);
      var e := if out.Some? then out.value else 0;
      Estimate(e, e)
    else if amount < outR then
      var e := (inR * amount + (outR - amount) - 1) / (outR - amount);
      Estimate(e, e)
    else
      Estimate(0, 0)
  }

  /** With reserves 1,000,000 base and 2,000,000 quote, leg 1 buys base with 100 quote. Leg 2,
      which buys back exactly 100 quote, is quoted on the projected reserves and needs 50 base;
      quoted on the fetched reserves it would have needed 51. */
  lemma SecondLegSeesFirstLegExample()
    ensures var pool := PoolState(1_000_000, 2_000_000, 0, 6, 9, 9);
            var input := BuySellInput(100, Quote, Base);
            var quoter: Quoter := FeeFreeQuote;
            && Feasible(pool, input, quoter)
            && FirstLeg(pool, input, quoter).expectedOut == 49
            && SecondLeg(pool, input, quoter).expectedIn == 50
            && QuoteLeg(pool, Quote, Quote, 100, quoter).expectedIn == 51
  {
    var pool := PoolState(1_000_000, 2_000_000, 0, 6, 9, 9);
    var input := BuySellInput(100, Quote, Base);
    var quoter: Quoter := FeeFreeQuote;
    var l1 := FirstLeg(pool, input, quoter);
    assert l1.fixedSide == In;
    assert AmmMath.CalculateOutputAmount(100, 2_000_000, 1_000_000) == Some(49);
    assert l1.expectedOut == 49;
    var mid := Project(pool, l1);
    assert mid.baseReserve == 999_951 && mid.quoteReserve == 2_000_100;
    assert (999_951 * 100 + (2_000_100 - 100) - 1) / (2_000_100 - 100) == 50;
    assert (1_000_000 * 100 + (2_000_000 - 100) - 1) / (2_000_000 - 100) == 51;
  }
}
