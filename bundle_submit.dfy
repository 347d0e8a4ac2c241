/** `sendBundle` (src/txHandler.ts:913-993): prepare the tip, submit the bundle to the relay with
    one retry, wait for the acceptance flag, look the bundle up on the explorer with one retry,
    and classify what came back. Every remote call is an input value. */
module BundleSubmit {
  import opened Wrappers
  import opened Types

  /** Ticks of one second that the acceptance wait lasts at most. */
  const MaxPollTicks: nat := 100

  /** What `sendBundle` resolves to: signatures of a bundle the explorer reports, a bundle the
      relay took but whose settlement could not be read, or a failure before the relay took it. */
  datatype BundleOutcome =
    | Landed(bundleId: string, status: int, signatures: seq<string>)
    | Ambiguous(bundleId: string)
    | Failed(reason: string)

  const PrepareFailed: string := "Unable to prepare the bunde transaction"
  const BuildFailed: string := "Failed to prepare the bunde transaction"
  const SubmitFailed: string := "Bundle transaction failed"

  /** The relay, RPC node and explorer as one `sendBundle` call sees them. */
  datatype RelayEnv = RelayEnv(
    tipAccounts: Call<seq<string>>,         // jitoClient.getTipAccounts()
    nextLeaderSlot: Call<nat>,              // jitoClient.getNextScheduledLeader(), its nextLeaderSlot
    blockhash: Call<string>,                // connection.getLatestBlockhash(), not caught
    firstSend: Call<string>,                // jitoClient.sendBundle(b)
    secondSend: Call<string>,               // its retry, made only when the first rejects
    acceptedSeen: seq<bool>,                // finalRes.pass as read at each tick; false past the end
    firstLookup: Call<Option<BundleRes>>,   // getBunderInfo(bundleId); None is `undefined`
    secondLookup: Call<Option<BundleRes>>)  // its retry, made only when the first gives nothing

  /** JavaScript truthiness of a string. */
  predicate Truthy(s: string)
  {
    s != ""
  }

  // ---------------------------------------------------------------------------
  // Bundle construction
  // ---------------------------------------------------------------------------

  /** `new bundle.Bundle(txs, limit).addTipTx(...)`: the tip transaction is appended when the
      bundle then holds at most `limit` transactions, and an Error is returned otherwise. */
  function AddTipTx(txCount: nat, limit: nat): (r: Result<nat, string>)
    ensures r.Ok? <==> txCount + 1 <= limit
    ensures r.Ok? ==> r.value == txCount + 1
  {
    if txCount + 1 > limit then Err("Transaction limit exceeded") else Ok(txCount + 1)
  }

  // ---------------------------------------------------------------------------
  // The pieces of the flow
  // ---------------------------------------------------------------------------

  /** The tip account list and the leader slot were both obtained; slot 0 is falsy. */
  predicate Prepared(env: RelayEnv)
  {
    env.tipAccounts.Resolved? && env.nextLeaderSlot.Resolved? && env.nextLeaderSlot.value != 0
  }

  /** The id the relay returned, trying a second time only when the first submission rejects;
      None when neither gave a truthy id. */
  function BundleIdOf(env: RelayEnv): (id: Option<string>)
    ensures id.Some? ==> Truthy(id.value)
    ensures id.Some? ==> (env.firstSend.Resolved? && id.value == env.firstSend.value) ||
                         (env.firstSend.Rejected? && env.secondSend == Resolved(id.value))
    ensures env.firstSend.Resolved? && Truthy(env.firstSend.value) ==> id == Some(env.firstSend.value)
    // a rejected first submission is retried, and a truthy id from the retry is used
    ensures env.firstSend.Rejected? && env.secondSend.Resolved? && Truthy(env.secondSend.value) ==>
              id == Some(env.secondSend.value)
  {
    var sent := if env.firstSend.Resolved? then env.firstSend else env.secondSend;
    if sent.Resolved? && Truthy(sent.value) then Some(sent.value) else None
  }

  /** Whether a lookup produced a truthy record. */
  predicate Found(c: Call<Option<BundleRes>>)
  {
    c.Resolved? && c.value.Some?
  }

  /** The explorer record after at most two lookups: the first when it found something,
      otherwise whatever the second gave. */
  function LookupWithRetry(env: RelayEnv): (res: Option<BundleRes>)
    ensures Found(env.firstLookup) ==> res == env.firstLookup.value
    // a first lookup that found nothing is repeated, and the second answer is used
    ensures !Found(env.firstLookup) && env.secondLookup.Resolved? ==> res == env.secondLookup.value
    ensures res.Some? ==> (Found(env.firstLookup) && res == env.firstLookup.value) ||
                          (!Found(env.firstLookup) && env.secondLookup == Resolved(res))
  {
    if Found(env.firstLookup) then env.firstLookup.value
    else if env.secondLookup.Resolved? then env.secondLookup.value
    else None
  }

  /** Lines 975-992: a record with both `transactions` and a truthy `status` makes the bundle
      landed, with exactly those; anything less keeps only the bundle id. */
  function Classify(bundleId: string, res: Option<BundleRes>): (r: BundleOutcome)
    ensures r.Landed? <==>
              res.Some? && res.value.transactions.Some? && res.value.status.Some? && res.value.status.value != 0
    ensures r.Landed? ==>
              r.bundleId == bundleId && r.status == res.value.status.value && r.signatures == res.value.transactions.value
    ensures !r.Landed? ==> r == Ambiguous(bundleId)
  {
    match res
    case None => Ambiguous(bundleId)
    case Some(b) =>
      if b.transactions.None? || b.status.None? || b.status.value == 0 then Ambiguous(bundleId)
      else Landed(bundleId, b.status.value, b.transactions.value)
  }

  /** What `sendBundle` resolves to, None when it rejects (the block-hash fetch is not caught). */
  function SendBundleOutcome(env: RelayEnv): (r: Option<BundleOutcome>)
    ensures r == Some(Failed(PrepareFailed)) <==> !Prepared(env)
    ensures r.None? <==> Prepared(env) && env.blockhash.Rejected?
    ensures r == Some(Failed(SubmitFailed)) <==>
              Prepared(env) && env.blockhash.Resolved? && BundleIdOf(env).None?
    // once the relay has returned an id the outcome is never a plain failure, and it keeps the id
    ensures Prepared(env) && env.blockhash.Resolved? && BundleIdOf(env).Some? ==>
              r.Some? && !r.value.Failed? && r.value.bundleId == BundleIdOf(env).value
    // once there is an id, the record found by the lookups decides the outcome
    ensures Prepared(env) && env.blockhash.Resolved? && BundleIdOf(env).Some? ==>
              r == Some(Classify(BundleIdOf(env).value, LookupWithRetry(env)))
    // a landed bundle carries exactly what the explorer returned, with a truthy status
    ensures r.Some? && r.value.Landed? ==>
              var res := LookupWithRetry(env);
              res.Some? && res.value.transactions == Some(r.value.signatures) &&
              res.value.status == Some(r.value.status) && r.value.status != 0
  {
    if !Prepared(env) then Some(Failed(PrepareFailed))
    else if env.blockhash.Rejected? then None
    else match BundleIdOf(env)
      case None => Some(Failed(SubmitFailed))
      case Some(id) => Some(Classify(id, LookupWithRetry(env)))
  }

  // ---------------------------------------------------------------------------
  // The flow, step by step
  // ---------------------------------------------------------------------------

  function PassAt(seen: seq<bool>, i: nat): bool
  {
    i < |seen| && seen[i]
  }

  /** Lines 960-965: wait one tick at a time until the acceptance flag is seen, for at most
      `MaxPollTicks` ticks. `waited` is the number of ticks slept: the first tick that sees the
      flag, or the ceiling. */
  method PollAcceptance(seen: seq<bool>) returns (waited: nat)
    ensures waited <= MaxPollTicks
    ensures forall j :: 0 <= j < waited ==> !PassAt(seen, j)
    ensures waited < MaxPollTicks ==> PassAt(seen, waited)
  {
    var i := 0;
    while i < MaxPollTicks
      invariant 0 <= i <= MaxPollTicks
      invariant forall j :: 0 <= j < i ==> !PassAt(seen, j)
    {
      if PassAt(seen, i) {
        break;
      }
      i := i + 1;
    }
    waited := i;
  }

  /** How many times `sendBundle` submits to the relay: none before the tip accounts, the leader
      slot and the block hash are in hand, then once, and once more when the first submission
      rejects (lines 949-958). */
  function Submissions(env: RelayEnv): (n: nat)
    ensures n <= 2
    ensures n == 0 <==> !Prepared(env) || env.blockhash.Rejected?
    ensures n == 2 <==> Prepared(env) && env.blockhash.Resolved? && env.firstSend.Rejected?
  {
    if !Prepared(env) || env.blockhash.Rejected? then 0
    else if env.firstSend.Rejected? then 2
    else 1
  }

  /** `sendBundle` for a bundle of `txCount` transactions. Besides the outcome it reports how many
      submissions and lookups it made and how many ticks it waited. */
  method SendBundle(txCount: nat, env: RelayEnv)
    returns (r: Option<BundleOutcome>, submissions: nat, waited: nat, lookups: nat)
    ensures r == SendBundleOutcome(env)
    ensures submissions <= 2 && lookups <= 2 && waited <= MaxPollTicks
    ensures submissions == 2 ==> env.firstSend.Rejected?
    ensures lookups == 2 ==> !Found(env.firstLookup)
    // the relay is only waited on and the explorer only asked once the relay returned an id
    ensures waited > 0 || lookups > 0 ==> BundleIdOf(env).Some?
    // a rejected first submission is retried
    ensures Prepared(env) && env.blockhash.Resolved? && env.firstSend.Rejected? ==> submissions == 2
    ensures Prepared(env) && env.blockhash.Resolved? && env.firstSend.Resolved? ==> submissions == 1
    // once there is an id, the explorer is asked again exactly when the first lookup found nothing
    ensures Prepared(env) && env.blockhash.Resolved? && BundleIdOf(env).Some? ==>
              lookups == (if Found(env.firstLookup) then 1 else 2)
    ensures BundleIdOf(env).None? ==> lookups == 0 && waited == 0
    ensures submissions == Submissions(env)
    // nothing is submitted, awaited or looked up before the preparation and the block hash succeed
    ensures !(Prepared(env) && env.blockhash.Resolved?) ==> submissions == 0 && lookups == 0 && waited == 0
    // once there is an id, the wait stops at the first tick that sees the acceptance flag
    ensures Prepared(env) && env.blockhash.Resolved? && BundleIdOf(env).Some? ==>
              (forall j :: 0 <= j < waited ==> !PassAt(env.acceptedSeen, j)) &&
              (waited < MaxPollTicks ==> PassAt(env.acceptedSeen, waited))
  {
    submissions, waited, lookups := 0, 0, 0;
    if env.tipAccounts.Rejected? {
      return Some(Failed(PrepareFailed)), submissions, waited, lookups;
    }
    if env.nextLeaderSlot.Rejected? || env.nextLeaderSlot.value == 0 {
      return Some(Failed(PrepareFailed)), submissions, waited, lookups;
    }
    if env.blockhash.Rejected? {
      return None, submissions, waited, lookups;
    }
    var b := AddTipTx(txCount, txCount + 1);
    if b.Err? {
      return Some(Failed(BuildFailed)), submissions, waited, lookups;
    }
    var sent := env.firstSend;
    submissions := 1;
    if sent.Rejected? {
      sent := env.secondSend;
      submissions := 2;
    }
    if sent.Rejected? || !Truthy(sent.value) {
      return Some(Failed(SubmitFailed)), submissions, waited, lookups;
    }
    var bundleId := sent.value;
    waited := PollAcceptance(env.acceptedSeen);
    var bundleRes := env.firstLookup;
    lookups := 1;
    if !Found(bundleRes) {
      bundleRes := env.secondLookup;
      lookups := 2;
    }
    var res := if bundleRes.Resolved? then bundleRes.value else None;
    r := Some(Classify(bundleId, res));
  }

  // ---------------------------------------------------------------------------
  // Reconciliation scenarios
  // ---------------------------------------------------------------------------

  /** The acceptance flag never comes and the explorer finds the bundle only on the second
      lookup: the bundle is landed with the signatures of that second answer. */
  lemma LandsOnSecondLookup(env: RelayEnv, sigs: seq<string>, status: int)
    requires Prepared(env) && env.blockhash.Resolved?
    requires env.firstSend.Resolved? && Truthy(env.firstSend.value)
    requires forall j :: 0 <= j < |env.acceptedSeen| ==> !env.acceptedSeen[j]
    requires env.firstLookup == Resolved(None)
    requires env.secondLookup == Resolved(Some(BundleRes(Some(sigs), Some(status)))) && status != 0
    ensures SendBundleOutcome(env) == Some(Landed(env.firstSend.value, status, sigs))
  {
  }

  /** Once the relay gave an id, a record with signatures and a truthy status from either lookup
      makes the bundle landed with exactly those. */
  lemma FoundRecordLands(env: RelayEnv, sigs: seq<string>, status: int)
    requires Prepared(env) && env.blockhash.Resolved? && BundleIdOf(env).Some?
    requires LookupWithRetry(env) == Some(BundleRes(Some(sigs), Some(status))) && status != 0
    ensures SendBundleOutcome(env) == Some(Landed(BundleIdOf(env).value, status, sigs))
  {
  }

  /** Nothing from the flag and nothing from either lookup: ambiguous, with the relay's id. */
  lemma NothingFoundIsAmbiguous(env: RelayEnv)
    requires Prepared(env) && env.blockhash.Resolved?
    requires env.firstSend.Resolved? && Truthy(env.firstSend.value)
    requires !Found(env.firstLookup) && !Found(env.secondLookup)
    ensures SendBundleOutcome(env) == Some(Ambiguous(env.firstSend.value))
  {
  }

  /** The bundle built with a limit of one more than its transactions always takes its tip. */
  lemma TipAlwaysFits(txCount: nat)
    ensures AddTipTx(txCount, txCount + 1) == Ok(txCount + 1)
  {
  }
}
