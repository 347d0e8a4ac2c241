/** `createAndBuy` (src/txHandler.ts:694-910): create a pool from a market and buy from it in the
    same bundle. Before anything is built, the flow checks the wallets and funds. It adds the
    buyer's missing token accounts ahead of the buy, sends the two-transaction bundle with one
    retry of the whole bundle, and maps what came back into its own result. */
module CreateAndBuyFlow {
  import opened Wrappers
  import opened Types
  import AmmMath
  import RP = ReserveProjection
  import opened BundleSubmit

  /** The wrapped-SOL mint of the token program. */
  const NativeMint: string := "So11111111111111111111111111111111111111112"

  /** Lamports per SOL is 10^9: the decimals `calcDecimalValue` scales SOL amounts by. */
  const SolDecimals: nat := 9

  // ---------------------------------------------------------------------------
  // Entities
  // ---------------------------------------------------------------------------

  /** The market's two mints, as `getMarketInfo` reports them. */
  datatype MarketState = MarketState(baseMint: string, quoteMint: string)

  /** What `createPool` prepared: the new pool's id and the raw amounts it is seeded with. */
  datatype CreatedPool = CreatedPool(poolId: string, baseAmount: nat, quoteAmount: nat)

  /** An account the buy step reads: a wallet, or a wallet's associated token account for a mint. */
  datatype Address = Wallet(key: string) | Ata(mint: string, owner: string)

  /** An existing account: its lamports and, for a token account, its raw token amount. */
  datatype AccountInfo = AccountInfo(lamports: nat, tokenAmount: nat)

  /** What to buy: the token and its raw amount, which is the exact output of the buy. */
  datatype BuyRequest = BuyRequest(buyToken: TokenType, buyAmount: nat)

  /** The buy transaction's instructions: token-account creation paid by the buyer, and the
      SDK's fixed-output buy (`buyFromPool`). */
  datatype BuyInstruction =
    | CreateAta(payer: string, account: Address, owner: string, mint: string)
    | BuyFromPool(amountIn: nat, amountOut: nat, accountIn: Address, accountOut: Address, user: string)

  /** The RPC node, the SDK and the relay as one `createAndBuy` call sees them. A retried call
      is given by its result after the retry. */
  datatype LaunchEnv = LaunchEnv(
    market: Option<MarketState>,                   // getMarketInfo, null when it rejects
    createdPool: Option<CreatedPool>,              // baseRay.createPool, null when it rejects
    baseDecimals: nat, quoteDecimals: nat, lpDecimals: nat,  // from getPoolKeys
    accounts: Option<map<Address, AccountInfo>>,   // getMultipleAccountsInfo; absent key is null
    buyBuilt: bool,                                // baseRay.buyFromPool resolved
    createPoolBlockhash: bool,                     // a block hash for the create-pool transaction
    buyBlockhash: bool,                            // a block hash for the buy transaction
    firstBundle: RelayEnv,                         // the relay during the first sendBundle
    secondBundle: RelayEnv)                        // the relay during the resend, if any

  /** `createAndBuy`'s success value. */
  datatype Bought = Bought(
    bundleId: string, poolId: string,
    createPoolTxSignature: string, buyTxSignature: string, bundleStatus: int)

  /** `createAndBuy`'s error: a message, or a bundle the relay took whose landing is unconfirmed. */
  datatype LaunchError = Message(text: string) | Unconfirmed(bundleId: string, poolId: string)

  const SameWallet: string := "Creator and buyer Wallet should be different"
  const MarketNotFound: string := "market not found"
  const PoolNotPrepared: string := "Failed to prepare create pool transaction"
  const AccountsUnavailable: string := "Failed to prepare buy transaction"
  const CreatorShort: string := "pool creator wallet dosen't have enought Sol to create pool"
  const BuyerWithoutSol: string := "buyer wallet dosen't have enought Sol to create pool"
  const BuyNotBuilt: string := "Failed to create buy transaction"
  const NoBlockhash: string := "Failed to prepare transaction"
  const SendFailed: string := "Failed to send the bundle"

  /** The two branches of the source word their buyer-side rejections differently. */
  function SolShort(buy: TokenType): string
  {
    if buy == Base then "Buyer wallet dosen't have enought Sol to buy the tokens"
    else "Buyer wallet dosen't have enought Sol to buy or distribute the tokens"
  }

  function NoPayingAccount(buy: TokenType): string
  {
    if buy == Base then "buyer wallet dosen't have enought fund to buy another token"
    else "Buyer wallet dosen't have enought fund to buy another token"
  }

  function TokenShort(buy: TokenType): string
  {
    if buy == Base then "buyer wallet dosen't have enought fund to buy another token"
    else "Buyer dosen't have enought fund to buy another token"
  }

  function MintOf(m: MarketState, t: TokenType): string
  {
    if t == Base then m.baseMint else m.quoteMint
  }

  function Lookup(accounts: map<Address, AccountInfo>, a: Address): Option<AccountInfo>
  {
    if a in accounts then Some(accounts[a]) else None
  }

  // ---------------------------------------------------------------------------
  // Prechecks
  // ---------------------------------------------------------------------------

  /** Lines 720-728: the lamports the pool creator puts in, which is the seed amount of whichever
      side of the market is wrapped SOL, and 0 when neither is. */
  function CreatePoolSolFund(m: MarketState, pool: CreatedPool): (fund: nat)
    ensures m.baseMint == NativeMint ==> fund == pool.baseAmount
    ensures m.baseMint != NativeMint && m.quoteMint == NativeMint ==> fund == pool.quoteAmount
    ensures fund > 0 ==> m.baseMint == NativeMint || m.quoteMint == NativeMint
  {
    if m.baseMint == NativeMint then pool.baseAmount
    else if m.quoteMint == NativeMint then pool.quoteAmount
    else 0
  }

  /** The buyer's token accounts that the buy pays from and receives into, for the paid mint and
      the bought mint. */
  function BuyAccounts(m: MarketState, buy: TokenType, buyer: string): (acc: (Address, Address))
    ensures acc.0.Ata? && acc.0.owner == buyer && acc.0.mint == MintOf(m, Other(buy))
    ensures acc.1.Ata? && acc.1.owner == buyer && acc.1.mint == MintOf(m, buy)
  {
    (Ata(MintOf(m, Other(buy)), buyer), Ata(MintOf(m, buy), buyer))
  }

  /** Lines 754-755 and 786-787 as written: the quote branch derives both accounts for the pool
      creator instead of the buyer. */
  function BuyAccountsAsWritten(m: MarketState, buy: TokenType, creator: string, buyer: string)
    : (acc: (Address, Address))
    ensures acc.0.Ata? && acc.0.mint == MintOf(m, Other(buy))
    ensures acc.1.Ata? && acc.1.mint == MintOf(m, buy)
    ensures acc.0.owner == acc.1.owner == (if buy == Base then buyer else creator)
  {
    var owner := if buy == Base then buyer else creator;
    (Ata(MintOf(m, Other(buy)), owner), Ata(MintOf(m, buy), owner))
  }

  /** Lines 764-780 and 796-812: the balance checks before the buy is built; `Some` carries the
      rejection. The SOL comparison goes through `calcDecimalValue`, which changes nothing. */
  function FundsCheck(buy: TokenType, solFund: nat, amountIn: nat, mintIn: string,
                      creator: Option<AccountInfo>, buyer: Option<AccountInfo>,
                      payingAccount: Option<AccountInfo>): (err: Option<string>)
    ensures err.None? <==>
              creator.Some? && creator.value.lamports >= solFund && buyer.Some? &&
              (if mintIn == NativeMint then buyer.value.lamports >= amountIn
               else payingAccount.Some? && payingAccount.value.tokenAmount >= amountIn)
    ensures creator.None? || creator.value.lamports < solFund ==> err == Some(CreatorShort)
    ensures creator.Some? && creator.value.lamports >= solFund && buyer.None? ==> err == Some(BuyerWithoutSol)
    ensures (creator.Some? && creator.value.lamports >= solFund && buyer.Some? && mintIn == NativeMint &&
             buyer.value.lamports < amountIn) ==> err == Some(SolShort(buy))
    ensures (creator.Some? && creator.value.lamports >= solFund && buyer.Some? && mintIn != NativeMint &&
             payingAccount.None?) ==> err == Some(NoPayingAccount(buy))
    ensures (creator.Some? && creator.value.lamports >= solFund && buyer.Some? && mintIn != NativeMint &&
             payingAccount.Some? && payingAccount.value.tokenAmount < amountIn) ==> err == Some(TokenShort(buy))
  {
    if creator.None? || creator.value.lamports < solFund then Some(CreatorShort)
    else if buyer.None? then Some(BuyerWithoutSol)
    else if mintIn == NativeMint then
      AmmMath.DecimalComparisonExact(buyer.value.lamports, amountIn, SolDecimals);
      if AmmMath.CalcDecimalValue(buyer.value.lamports as real, SolDecimals)
         < AmmMath.CalcDecimalValue(amountIn as real, SolDecimals)
      then Some(SolShort(buy))
      else None
    else if payingAccount.None? then Some(NoPayingAccount(buy))
    else if payingAccount.value.tokenAmount < amountIn then Some(TokenShort(buy))
    else None
  }

  /** Everything the buy transaction needs once the prechecks have passed. */
  datatype PreparedBuy = PreparedBuy(
    poolId: string, amountIn: nat, amountOut: nat,
    mintIn: string, mintOut: string, accountIn: Address, accountOut: Address,
    payingAccountExists: bool, receivingAccountExists: bool)

  /** The pool as the quote sees it: the seed amounts as reserves and no LP supply yet. */
  function SeededPool(env: LaunchEnv, pool: CreatedPool): RP.PoolState
  {
    RP.PoolState(pool.baseAmount, pool.quoteAmount, 0, env.baseDecimals, env.quoteDecimals, env.lpDecimals)
  }

  /** The buy's payment: the quote's upper bound for the exact output, on the seeded pool. */
  function PaidAmount(req: BuyRequest, quoter: RP.Quoter, env: LaunchEnv, pool: CreatedPool): nat
  {
    quoter(RP.Out, req.buyToken, req.buyAmount, SeededPool(env, pool)).bound
  }

  /** The funds check as `createAndBuy` runs it once the market, the pool and the accounts are in. */
  function PrepareFunds(creator: string, buyer: string, req: BuyRequest, quoter: RP.Quoter, env: LaunchEnv)
    : Option<string>
    requires env.market.Some? && env.createdPool.Some? && env.accounts.Some?
  {
    var m, pool, infos := env.market.value, env.createdPool.value, env.accounts.value;
    FundsCheck(req.buyToken, CreatePoolSolFund(m, pool), PaidAmount(req, quoter, env, pool),
               MintOf(m, Other(req.buyToken)), Lookup(infos, Wallet(creator)),
               Lookup(infos, Wallet(buyer)), Lookup(infos, BuyAccounts(m, req.buyToken, buyer).0))
  }

  /** Lines 700-849 up to the bundle: the rejections in the order the source makes them, or
      the prepared buy. The paid amount is the quote's upper bound for the exact output. */
  function Prepare(creator: string, buyer: string, req: BuyRequest, quoter: RP.Quoter, env: LaunchEnv)
    : (r: Result<PreparedBuy, string>)
    ensures creator == buyer ==> r == Err(SameWallet)
    ensures creator != buyer && env.market.None? ==> r == Err(MarketNotFound)
    ensures creator != buyer && env.market.Some? && env.createdPool.None? ==> r == Err(PoolNotPrepared)
    ensures creator != buyer && env.market.Some? && env.createdPool.Some? && env.accounts.None? ==>
              r == Err(AccountsUnavailable)
    // past the account fetch: the funds check's rejection, then the build and block-hash failures,
    // and a request that passes every check is accepted
    ensures creator != buyer && env.market.Some? && env.createdPool.Some? && env.accounts.Some? ==>
              var check := PrepareFunds(creator, buyer, req, quoter, env);
              (check.Some? ==> r == Err(check.value)) &&
              (check.None? && !env.buyBuilt ==> r == Err(BuyNotBuilt)) &&
              (check.None? && env.buyBuilt && !(env.createPoolBlockhash && env.buyBlockhash) ==>
                 r == Err(NoBlockhash)) &&
              (check.None? && env.buyBuilt && env.createPoolBlockhash && env.buyBlockhash ==> r.Ok?)
    ensures r.Ok? ==>
              creator != buyer && env.market.Some? && env.createdPool.Some? && env.accounts.Some? &&
              env.buyBuilt && env.createPoolBlockhash && env.buyBlockhash
    ensures r.Ok? ==>
              var p := r.value;
              var infos := env.accounts.value;
              p.poolId == env.createdPool.value.poolId &&
              p.amountOut == req.buyAmount &&
              p.amountIn == quoter(RP.Out, req.buyToken, req.buyAmount, SeededPool(env, env.createdPool.value)).bound &&
              // both token accounts are the buyer's, for the paid and the bought mint
              p.accountIn == Ata(p.mintIn, buyer) && p.accountOut == Ata(p.mintOut, buyer) &&
              p.mintIn == MintOf(env.market.value, Other(req.buyToken)) &&
              p.mintOut == MintOf(env.market.value, req.buyToken) &&
              p.payingAccountExists == (p.accountIn in infos) &&
              p.receivingAccountExists == (p.accountOut in infos) &&
              // the creator can fund the pool and the buyer can pay for the buy
              Wallet(creator) in infos &&
              infos[Wallet(creator)].lamports >= CreatePoolSolFund(env.market.value, env.createdPool.value) &&
              Wallet(buyer) in infos &&
              (if p.mintIn == NativeMint then infos[Wallet(buyer)].lamports >= p.amountIn
               else p.accountIn in infos && infos[p.accountIn].tokenAmount >= p.amountIn)
  {
    if creator == buyer then Err(SameWallet)
    else if env.market.None? then Err(MarketNotFound)
    else if env.createdPool.None? then Err(PoolNotPrepared)
    else
      var m, pool := env.market.value, env.createdPool.value;
      var amountIn := PaidAmount(req, quoter, env, pool);
      var acc := BuyAccounts(m, req.buyToken, buyer);
      if env.accounts.None? then Err(AccountsUnavailable)
      else
        var infos := env.accounts.value;
        var mintIn := MintOf(m, Other(req.buyToken));
        var check := PrepareFunds(creator, buyer, req, quoter, env);
        if check.Some? then Err(check.value)
        else if !env.buyBuilt then Err(BuyNotBuilt)
        else if !env.createPoolBlockhash || !env.buyBlockhash then Err(NoBlockhash)
        else Ok(PreparedBuy(pool.poolId, amountIn, req.buyAmount, mintIn, MintOf(m, req.buyToken),
                            acc.0, acc.1, acc.0 in infos, acc.1 in infos))
  }

  // ---------------------------------------------------------------------------
  // The bundle result
  // ---------------------------------------------------------------------------

  /** The first two signatures are present and truthy; an index past the end is `undefined`. */
  predicate BothSigned(sigs: seq<string>)
  {
    |sigs| >= 2 && sigs[0] != "" && sigs[1] != ""
  }

  /** Lines 866-878: the whole bundle is sent once more, only when the first send rejected or
      failed before the relay gave a bundle id. */
  predicate NeedsResend(first: Option<BundleOutcome>)
  {
    first.None? || first.value.Failed?
  }

  /** Lines 879-909: what `createAndBuy` makes of `sendBundle`'s outcome. */
  function MapBundleResult(res: Option<BundleOutcome>, poolId: string): (r: Result<Bought, LaunchError>)
    ensures res.None? ==> r == Err(Message(SendFailed))
    ensures r.Ok? <==> res.Some? && res.value.Landed? && BothSigned(res.value.signatures)
    ensures r.Ok? ==>
              r.value == Bought(res.value.bundleId, poolId, res.value.signatures[0],
                                res.value.signatures[1], res.value.status)
    ensures res.Some? && res.value.Failed? ==> r == Err(Message(res.value.reason))
    // a bundle the relay took keeps its id, whether it is ambiguous or lacks a signature
    ensures res.Some? && !res.value.Failed? && r.Err? ==> r == Err(Unconfirmed(res.value.bundleId, poolId))
  {
    match res
    case None => Err(Message(SendFailed))
    case Some(Failed(reason)) => Err(Message(reason))
    case Some(Ambiguous(id)) => Err(Unconfirmed(id, poolId))
    case Some(Landed(id, status, sigs)) =>
      if BothSigned(sigs) then Ok(Bought(id, poolId, sigs[0], sigs[1], status))
      else Err(Unconfirmed(id, poolId))
  }

  /** What `createAndBuy` resolves to. */
  function CreateAndBuyOutcome(creator: string, buyer: string, req: BuyRequest, quoter: RP.Quoter,
                               env: LaunchEnv): (r: Result<Bought, LaunchError>)
    ensures Prepare(creator, buyer, req, quoter, env).Err? ==>
              r == Err(Message(Prepare(creator, buyer, req, quoter, env).error))
    ensures r.Ok? ==>
              Prepare(creator, buyer, req, quoter, env).Ok? && r.value.poolId == env.createdPool.value.poolId
    ensures r.Err? && r.error.Unconfirmed? ==>
              Prepare(creator, buyer, req, quoter, env).Ok? && r.error.poolId == env.createdPool.value.poolId
    // the first send's outcome is used unless it rejected or failed; then the resend's is
    ensures Prepare(creator, buyer, req, quoter, env).Ok? ==>
              var first := SendBundleOutcome(env.firstBundle);
              var poolId := Prepare(creator, buyer, req, quoter, env).value.poolId;
              (NeedsResend(first) ==> r == MapBundleResult(SendBundleOutcome(env.secondBundle), poolId)) &&
              (!NeedsResend(first) ==> r == MapBundleResult(first, poolId))
    // a bundle whose first send got a bundle id is never sent again, and its id is kept
    ensures Prepare(creator, buyer, req, quoter, env).Ok? && !NeedsResend(SendBundleOutcome(env.firstBundle)) ==>
              r.Ok? || r.error.Unconfirmed?
  {
    match Prepare(creator, buyer, req, quoter, env)
    case Err(e) => Err(Message(e))
    case Ok(p) =>
      var first := SendBundleOutcome(env.firstBundle);
      var res := if NeedsResend(first) then SendBundleOutcome(env.secondBundle) else first;
      MapBundleResult(res, p.poolId)
  }

  // ---------------------------------------------------------------------------
  // The flow, step by step
  // ---------------------------------------------------------------------------

  /** Lines 781-782 and 813-814: create the paying and the receiving account when missing, in
      that order, both paid for and owned by the buyer. */
  method PreBuyInstructions(buyer: string, p: PreparedBuy) returns (ixs: seq<BuyInstruction>)
    ensures |ixs| == (if p.payingAccountExists then 0 else 1) + (if p.receivingAccountExists then 0 else 1)
    ensures forall i :: 0 <= i < |ixs| ==> ixs[i].CreateAta? && ixs[i].payer == buyer && ixs[i].owner == buyer
    ensures !p.payingAccountExists ==> ixs[0] == CreateAta(buyer, p.accountIn, buyer, p.mintIn)
    ensures !p.receivingAccountExists ==> ixs[|ixs| - 1] == CreateAta(buyer, p.accountOut, buyer, p.mintOut)
    ensures ixs == (if p.payingAccountExists then [] else [CreateAta(buyer, p.accountIn, buyer, p.mintIn)]) +
                   (if p.receivingAccountExists then [] else [CreateAta(buyer, p.accountOut, buyer, p.mintOut)])
  {
    ixs := [];
    if !p.payingAccountExists {
      ixs := ixs + [CreateAta(buyer, p.accountIn, buyer, p.mintIn)];
    }
    if !p.receivingAccountExists {
      ixs := ixs + [CreateAta(buyer, p.accountOut, buyer, p.mintOut)];
    }
  }

  /** `createAndBuy`. Besides the result it gives the buy transaction's instructions (empty when
      nothing was built), how many times the bundle was sent and how many relay submissions
      those sends made. */
  method CreateAndBuy(creator: string, buyer: string, req: BuyRequest, quoter: RP.Quoter, env: LaunchEnv)
    returns (r: Result<Bought, LaunchError>, buyTx: seq<BuyInstruction>, bundleSends: nat, relaySubmissions: nat)
    ensures r == CreateAndBuyOutcome(creator, buyer, req, quoter, env)
    ensures bundleSends <= 2 && relaySubmissions <= 2 * bundleSends
    ensures relaySubmissions ==
              (if bundleSends > 0 then Submissions(env.firstBundle) else 0) +
              (if bundleSends == 2 then Submissions(env.secondBundle) else 0)
    ensures bundleSends == 2 <==>
              Prepare(creator, buyer, req, quoter, env).Ok? && NeedsResend(SendBundleOutcome(env.firstBundle))
    // nothing is sent unless every precheck passed
    ensures bundleSends > 0 <==> Prepare(creator, buyer, req, quoter, env).Ok?
    // the buy transaction ends with the fixed-output buy, after at most two account creations
    ensures bundleSends > 0 ==>
              var p := Prepare(creator, buyer, req, quoter, env).value;
              1 <= |buyTx| <= 3 &&
              buyTx[|buyTx| - 1] == BuyFromPool(p.amountIn, req.buyAmount, p.accountIn, p.accountOut, buyer) &&
              forall i :: 0 <= i < |buyTx| - 1 ==> buyTx[i].CreateAta?
    // before the buy come exactly the creations of the buyer's missing accounts, paying one first
    ensures bundleSends > 0 ==>
              var p := Prepare(creator, buyer, req, quoter, env).value;
              buyTx[..|buyTx| - 1] ==
                (if p.payingAccountExists then [] else [CreateAta(buyer, p.accountIn, buyer, p.mintIn)]) +
                (if p.receivingAccountExists then [] else [CreateAta(buyer, p.accountOut, buyer, p.mintOut)])
    ensures bundleSends == 0 ==> buyTx == [] && relaySubmissions == 0
  {
    buyTx, bundleSends, relaySubmissions := [], 0, 0;
    var prepared := Prepare(creator, buyer, req, quoter, env);
    if prepared.Err? {
      return Err(Message(prepared.error)), buyTx, bundleSends, relaySubmissions;
    }
    var p := prepared.value;
    var preBuy := PreBuyInstructions(buyer, p);
    buyTx := preBuy + [BuyFromPool(p.amountIn, p.amountOut, p.accountIn, p.accountOut, buyer)];
    assert buyTx[..|buyTx| - 1] == preBuy;

    var res, submissions, waited, lookups := SendBundle(2, env.firstBundle);
    bundleSends, relaySubmissions := 1, submissions;
    if NeedsResend(res) {
      res, submissions, waited, lookups := SendBundle(2, env.secondBundle);
      bundleSends, relaySubmissions := 2, relaySubmissions + submissions;
    }
    r := MapBundleResult(res, p.poolId);
  }

  // ---------------------------------------------------------------------------
  // Properties across calls
  // ---------------------------------------------------------------------------

  /** With the relay taking the first bundle, the flow ends in success exactly when the
      explorer reports both signatures, whatever the resend would have done. */
  lemma FirstBundleTakenDecides(creator: string, buyer: string, req: BuyRequest, quoter: RP.Quoter,
                                env: LaunchEnv, other: RelayEnv)
    requires Prepare(creator, buyer, req, quoter, env).Ok?
    requires !NeedsResend(SendBundleOutcome(env.firstBundle))
    ensures CreateAndBuyOutcome(creator, buyer, req, quoter, env) ==
            CreateAndBuyOutcome(creator, buyer, req, quoter, env.(secondBundle := other))
  {
    assert Prepare(creator, buyer, req, quoter, env) == Prepare(creator, buyer, req, quoter, env.(secondBundle := other));
  }

  /** The corrected accounts belong to the buyer on both branches; the accounts as written
      belong to the pool creator when quote is bought. */
  lemma AsWrittenQuoteBranchUsesCreator(m: MarketState, creator: string, buyer: string)
    requires creator != buyer
    ensures BuyAccountsAsWritten(m, Base, creator, buyer) == BuyAccounts(m, Base, buyer)
    ensures BuyAccountsAsWritten(m, Quote, creator, buyer).0 == Ata(m.baseMint, creator)
    ensures BuyAccountsAsWritten(m, Quote, creator, buyer).0 != BuyAccounts(m, Quote, buyer).0
  {
  }

  /** Market TOKEN/wrapped SOL: the creator seeds the pool with 100,000 TOKEN and 2 SOL, has
      3 SOL and 200 TOKEN left, and the buyer holds 1000 TOKEN and buys wrapped SOL for 500 of
      them. As written the precheck reads the creator's token account and rejects the funded
      buyer; with the buyer's account it passes. */
  lemma AsWrittenRejectsFundedBuyer()
    ensures var m := MarketState("TOKEN", NativeMint);
            var pool := CreatedPool("pool", 100_000, 2_000_000_000);
            var accounts := map[Wallet("creator") := AccountInfo(3_000_000_000, 0),
                                Wallet("buyer") := AccountInfo(10_000_000, 0),
                                Ata("TOKEN", "creator") := AccountInfo(2_039_280, 200),
                                Ata("TOKEN", "buyer") := AccountInfo(2_039_280, 1000)];
            var asWritten := BuyAccountsAsWritten(m, Quote, "creator", "buyer").0;
            var corrected := BuyAccounts(m, Quote, "buyer").0;
            FundsCheck(Quote, CreatePoolSolFund(m, pool), 500, MintOf(m, Other(Quote)),
                       Lookup(accounts, Wallet("creator")), Lookup(accounts, Wallet("buyer")),
                       Lookup(accounts, asWritten))
              == Some(TokenShort(Quote)) &&
            FundsCheck(Quote, CreatePoolSolFund(m, pool), 500, MintOf(m, Other(Quote)),
                       Lookup(accounts, Wallet("creator")), Lookup(accounts, Wallet("buyer")),
                       Lookup(accounts, corrected))
              == None
  {
    var m := MarketState("TOKEN", NativeMint);
    var pool := CreatedPool("pool", 100_000, 2_000_000_000);
    var accounts := map[Wallet("creator") := AccountInfo(3_000_000_000, 0),
                        Wallet("buyer") := AccountInfo(10_000_000, 0),
                        Ata("TOKEN", "creator") := AccountInfo(2_039_280, 200),
                        Ata("TOKEN", "buyer") := AccountInfo(2_039_280, 1000)];
    assert CreatePoolSolFund(m, pool) == 2_000_000_000;
    assert BuyAccountsAsWritten(m, Quote, "creator", "buyer").0 == Ata("TOKEN", "creator");
    assert Lookup(accounts, Ata("TOKEN", "creator")) == Some(AccountInfo(2_039_280, 200));
    assert BuyAccounts(m, Quote, "buyer").0 == Ata("TOKEN", "buyer");
    assert Lookup(accounts, Ata("TOKEN", "buyer")) == Some(AccountInfo(2_039_280, 1000));
  }
}
