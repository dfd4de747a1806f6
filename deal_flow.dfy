/**
 * The deal lifecycle steps the background jobs run
 * (apps/backend/src/routes/api/deals/helpers.ts): checking the escrow
 * payment on chain, confirming it, publishing the approved creative, marking
 * the deal posted, checking that the post is still there, and settling the
 * deal with a payout or a refund. `now` stands for `new Date()`.
 */
module DealFlow {
  import opened Wrappers
  import opened Schema
  import opened Db
  import opened JobQueue
  import opened Gateways

  /** A string column read in a JavaScript condition: `null` and `""` are both falsy. */
  predicate Filled(s: Option<string>)
  {
    s.Some? && s.value != ""
  }

  /**
   * `checkBlockchainConfirmation(paymentId)`: a payment that is missing or lacks
   * either address is reported as not received without asking the chain;
   * otherwise the chain is asked for a transfer of the payment's amount in
   * nanotons from the payer to the escrow address.
   */
  function CheckBlockchainConfirmation(db: Database, paymentId: int, check: ChainCheck): (r: Outcome<Receipt>)
    reads db
    ensures paymentId !in db.payments ==> r == Returned(Receipt(false, None))
    ensures paymentId in db.payments && !(Filled(db.payments[paymentId].toAddress) && Filled(db.payments[paymentId].fromAddress))
            ==> r == Returned(Receipt(false, None))
    ensures paymentId in db.payments && Filled(db.payments[paymentId].toAddress) && Filled(db.payments[paymentId].fromAddress)
            ==> r == check(db.payments[paymentId].toAddress.value, db.payments[paymentId].fromAddress.value,
                           ToNano(db.payments[paymentId].amountInTon))
  {
    if paymentId !in db.payments then Returned(Receipt(false, None))
    else
      var p := db.payments[paymentId];
      if !(Filled(p.toAddress) && Filled(p.fromAddress)) then Returned(Receipt(false, None))
      else check(p.toAddress.value, p.fromAddress.value, ToNano(p.amountInTon))
  }

  /** The payment row after `updatePaymentStatus` confirmed it. */
  function ConfirmedPayment(p: Payment, hash: string, now: int): (q: Payment)
    ensures q.status == Confirmed && q.txHash == Some(hash) && q.confirmedAt == Some(now)
    ensures q.(status := p.status, txHash := p.txHash, confirmedAt := p.confirmedAt) == p
  {
    p.(confirmedAt := Some(now), txHash := Some(hash), status := Confirmed)
  }

  /**
   * `updatePaymentStatus(dealId, paymentId, hash)`: the payment becomes
   * `confirmed` with the hash, the deal becomes `scheduled`, and a publish job
   * is enqueued for the deal's scheduled time. Both updates happen before the
   * enqueue, so a missing deal or a scheduled time already past throws after
   * the rows were written and enqueues nothing.
   */
  method UpdatePaymentStatus(db: Database, jobs: Queues, dealId: int, paymentId: int, hash: string, now: int)
    returns (r: Outcome<()>)
    requires db.Valid()
    modifies db`payments, db`deals, jobs`scheduledPosting
    ensures db.Valid()
    ensures db.payments == if paymentId in old(db.payments)
                           then old(db.payments)[paymentId := ConfirmedPayment(old(db.payments)[paymentId], hash, now)]
                           else old(db.payments)
    ensures db.deals == if dealId in old(db.deals)
                        then old(db.deals)[dealId := old(db.deals)[dealId].(updatedAt := now, status := Scheduled)]
                        else old(db.deals)
    ensures dealId !in old(db.deals) ==> r.Threw? && jobs.scheduledPosting == old(jobs.scheduledPosting)
    ensures dealId in old(db.deals) ==>
              var at := old(db.deals)[dealId].scheduledPostAt;
              (r.Returned? <==> at > now)
              && jobs.scheduledPosting == if at > now
                 then old(jobs.scheduledPosting) + [Job("publish", ScheduledPostingJob(dealId), JobOptions(at - now, None, None))]
                 else old(jobs.scheduledPosting)
  {
    if paymentId in db.payments {
      db.UpdatePayment(ConfirmedPayment(db.payments[paymentId], hash, now));
    }
    r := ScheduleDeal(db, jobs, dealId, now);
  }

  /** The second half of `updatePaymentStatus`: the deal becomes `scheduled`, then its publish job is enqueued. */
  method ScheduleDeal(db: Database, jobs: Queues, dealId: int, now: int) returns (r: Outcome<()>)
    requires db.Valid()
    modifies db`deals, jobs`scheduledPosting
    ensures db.Valid()
    ensures db.deals == if dealId in old(db.deals)
                        then old(db.deals)[dealId := old(db.deals)[dealId].(updatedAt := now, status := Scheduled)]
                        else old(db.deals)
    ensures dealId !in old(db.deals) ==> r.Threw? && jobs.scheduledPosting == old(jobs.scheduledPosting)
    ensures dealId in old(db.deals) ==>
              var at := old(db.deals)[dealId].scheduledPostAt;
              (r.Returned? <==> at > now)
              && jobs.scheduledPosting == if at > now
                 then old(jobs.scheduledPosting) + [Job("publish", ScheduledPostingJob(dealId), JobOptions(at - now, None, None))]
                 else old(jobs.scheduledPosting)
  {
    if dealId !in db.deals {
      return Threw("Cannot read properties of undefined (reading 'scheduledPostAt')");
    }
    var updated := db.deals[dealId].(updatedAt := now, status := Scheduled);
    db.UpdateDeal(updated);
    r := jobs.AddScheduledPost(dealId, updated.scheduledPostAt, now);
  }

  /** The deal, its channel and an approved creative exist (the inner join of `publishPost`). */
  ghost predicate Publishable(db: Database, dealId: int)
    reads db
  {
    dealId in db.deals && db.deals[dealId].channelId in db.channels
    && exists c :: c in db.creatives && db.creatives[c].dealId == dealId && db.creatives[c].status == Approved
  }

  /**
   * `publishPost(dealId)`: sends the content of an approved creative of the deal
   * to the deal's channel through an active session. It fails, changing nothing,
   * when the join finds no row, when no session is active, when the gateway
   * throws or sends nothing; otherwise the post id is the sent message's id.
   */
  method PublishPost(db: Database, dealId: int, send: SendText) returns (success: bool, postId: Option<int>)
    ensures success <==> postId.Some?
    ensures !Publishable(db, dealId) || !db.HasActiveSession() ==> !success
    ensures success ==>
              exists c :: c in db.creatives && db.creatives[c].dealId == dealId && db.creatives[c].status == Approved
                && send(db.channels[db.deals[dealId].channelId].tgId, db.creatives[c].content) == Returned(Some(postId.value))
    ensures Publishable(db, dealId) && db.HasActiveSession()
            && (forall c :: c in db.creatives && db.creatives[c].dealId == dealId && db.creatives[c].status == Approved
                  ==> send(db.channels[db.deals[dealId].channelId].tgId, db.creatives[c].content).Returned?
                      && send(db.channels[db.deals[dealId].channelId].tgId, db.creatives[c].content).value.Some?)
            ==> success
  {
    if !(dealId in db.deals && db.deals[dealId].channelId in db.channels) {
      return false, None;
    }
    var chatId := db.channels[db.deals[dealId].channelId].tgId;
    if c :| c in db.creatives && db.creatives[c].dealId == dealId && db.creatives[c].status == Approved {
      var session := db.FindActiveSession();
      if session.None? {
        return false, None;
      }
      var sent := send(chatId, db.creatives[c].content);
      match sent
      case Threw(_) =>
        success, postId := false, None;
      case Returned(message) =>
        if message.Some? {
          success, postId := true, Some(message.value);
        } else {
          success, postId := false, None;
        }
    } else {
      success, postId := false, None;
    }
  }

  /** `updateStatusAsPosted(dealId, postId)`: status `posted` and the post id; `updatedAt` is the only other change. */
  method UpdateStatusAsPosted(db: Database, dealId: int, postId: int, now: int)
    requires db.Valid()
    modifies db`deals
    ensures db.Valid()
    ensures db.deals == if dealId in old(db.deals)
                        then old(db.deals)[dealId := old(db.deals)[dealId].(updatedAt := now, status := Posted, tgPostId := Some(postId))]
                        else old(db.deals)
  {
    if dealId in db.deals {
      db.UpdateDeal(db.deals[dealId].(updatedAt := now, status := Posted, tgPostId := Some(postId)));
    }
  }

  /**
   * `verifyPostAliveness(dealId, postId)`: true exactly when the deal and its
   * channel exist, a session is active and the gateway finds the message; a
   * gateway exception counts as false.
   */
  method VerifyPostAliveness(db: Database, dealId: int, postId: int, fetch: FetchMessage) returns (alive: bool)
    ensures alive <==> dealId in db.deals && db.deals[dealId].channelId in db.channels && db.HasActiveSession()
                       && fetch(db.channels[db.deals[dealId].channelId].tgId, postId) == Returned(true)
  {
    if !(dealId in db.deals && db.deals[dealId].channelId in db.channels) {
      return false;
    }
    var chatId := db.channels[db.deals[dealId].channelId].tgId;
    var session := db.FindActiveSession();
    if session.None? {
      return false;
    }
    var found := fetch(chatId, postId);
    alive := found == Returned(true);
  }

  // ---------------------------------------------------------------- settlement

  /** The row the settlement join reads: the request to close and where the money goes. */
  datatype SettlementRow = SettlementRow(
    adRequestId: int, walletAddress: Option<string>, paymentFromAddress: Option<string>,
    escrowPrivateKey: string, escrowPublicKey: string)

  /**
   * The join application ⋈ ad request ⋈ (the application's) channel ⋈ payment
   * of the deal ⋈ escrow wallet of that payment.
   */
  ghost function SettlementRowOf(db: Database, dealId: int, applicationId: int): Option<SettlementRow>
    reads db
    requires db.Valid()
  {
    if applicationId in db.applications
       && db.applications[applicationId].adRequestId in db.adRequests
       && db.applications[applicationId].channelId in db.channels
       && (exists k :: k in db.payments && db.payments[k].dealId == dealId)
    then
      var app := db.applications[applicationId];
      var k :| k in db.payments && db.payments[k].dealId == dealId;
      var p := db.payments[k];
      if p.escrowWallet in db.escrowWallets then
        var w := db.escrowWallets[p.escrowWallet];
        Some(SettlementRow(app.adRequestId, db.channels[app.channelId].walletAddress, p.fromAddress,
                           w.privateKey, w.publicKey))
      else None
    else None
  }

  method FindSettlementRow(db: Database, dealId: int, applicationId: int) returns (row: Option<SettlementRow>)
    requires db.Valid()
    ensures row == SettlementRowOf(db, dealId, applicationId)
  {
    row := None;
    var payment := db.FindPaymentOfDeal(dealId);
    if payment.None? {
      assert !(exists k :: k in db.payments && db.payments[k].dealId == dealId);
      return;
    }
    var pk := payment.value;
    assert pk in db.payments && db.payments[pk].dealId == dealId;
    ghost var k :| k in db.payments && db.payments[k].dealId == dealId;
    assert k == pk;
    if applicationId in db.applications {
      var app := db.applications[applicationId];
      if app.adRequestId in db.adRequests && app.channelId in db.channels {
        var p := db.payments[pk];
        if p.escrowWallet in db.escrowWallets {
          var w := db.escrowWallets[p.escrowWallet];
          row := Some(SettlementRow(app.adRequestId, db.channels[app.channelId].walletAddress, p.fromAddress,
                                    w.privateKey, w.publicKey));
        }
      }
    }
  }

  /**
   * Who is paid when a deal settles: the channel's wallet when it completed,
   * the payer's address when it was cancelled; `""` when that column is null.
   */
  function Recipient(outcome: SettleOutcome, walletAddress: Option<string>, fromAddress: Option<string>): (r: string)
    ensures outcome.OutcomeCompleted? && walletAddress.Some? ==> r == walletAddress.value
    ensures outcome.OutcomeCancelled? && fromAddress.Some? ==> r == fromAddress.value
    ensures r == "" <== (outcome.OutcomeCompleted? && walletAddress.None?) || (outcome.OutcomeCancelled? && fromAddress.None?)
  {
    if outcome.OutcomeCompleted? then walletAddress.OrElse("") else fromAddress.OrElse("")
  }

  /** The deal row `settleDeal` writes: the outcome status and exactly one of the two end times. */
  function SettledDeal(d: Deal, outcome: SettleOutcome, now: int): (e: Deal)
    ensures e.status == outcome.DealStatusOf() && e.updatedAt == now
    ensures outcome.OutcomeCompleted? ==> e.completedAt == Some(now) && e.cancelledAt == d.cancelledAt
    ensures outcome.OutcomeCancelled? ==> e.cancelledAt == Some(now) && e.completedAt == d.completedAt
    ensures e.(status := d.status, updatedAt := d.updatedAt, completedAt := d.completedAt, cancelledAt := d.cancelledAt) == d
  {
    if outcome.OutcomeCompleted? then d.(updatedAt := now, status := Completed, completedAt := Some(now))
    else d.(updatedAt := now, status := Cancelled, cancelledAt := Some(now))
  }

  /**
   * The deals, ad requests and transfers after `settleDeal(dealId, outcome)`
   * ran on `deals`, `adRequests` and `transfers` and its join read `row`: the
   * deal takes the outcome; when the row was found, its ad request takes the
   * outcome too and exactly one transfer of the agreed price (in TON, as
   * passed to `releaseFundsToOwner`) goes to the outcome's recipient.
   */
  ghost predicate Settled(deals: map<int, Deal>, adRequests: map<int, AdRequest>, transfers: seq<Transfer>,
                          row: Option<SettlementRow>, dealId: int, outcome: SettleOutcome, now: int,
                          deals': map<int, Deal>, adRequests': map<int, AdRequest>, transfers': seq<Transfer>)
    requires dealId in deals
  {
    var d := deals[dealId];
    deals' == deals[dealId := SettledDeal(d, outcome, now)]
    && (row.None? ==> adRequests' == adRequests && transfers' == transfers)
    && (row.Some? ==>
          row.value.adRequestId in adRequests
          && adRequests' == adRequests[row.value.adRequestId :=
               adRequests[row.value.adRequestId].(updatedAt := now, status := outcome.AdRequestStatusOf())]
          && transfers' == transfers +
               [Transfer(row.value.escrowPrivateKey, row.value.escrowPublicKey,
                         Recipient(outcome, row.value.walletAddress, row.value.paymentFromAddress), d.agreedPrice)])
  }

  /**
   * `settleDeal(dealId, outcome)`: writes the outcome to the deal; when the
   * settlement join finds its row, also to the ad request, and asks the escrow
   * wallet for exactly one transfer of the agreed price. Nothing checks the
   * deal's current status, so settling again issues another transfer.
   */
  method SettleDeal(db: Database, ledger: Ledger, dealId: int, outcome: SettleOutcome, now: int)
    requires db.Valid()
    modifies db`deals, db`adRequests, ledger`transfers
    ensures db.Valid()
    ensures dealId !in old(db.deals) ==>
              db.deals == old(db.deals) && db.adRequests == old(db.adRequests) && ledger.transfers == old(ledger.transfers)
    ensures dealId in old(db.deals) ==>
              Settled(old(db.deals), old(db.adRequests), old(ledger.transfers),
                      old(SettlementRowOf(db, dealId, db.deals[dealId].applicationId)), dealId, outcome, now,
                      db.deals, db.adRequests, ledger.transfers)
  {
    if dealId !in db.deals {
      return;
    }
    var deal := SettledDeal(db.deals[dealId], outcome, now);
    db.UpdateDeal(deal);
    var row := FindSettlementRow(db, dealId, deal.applicationId);
    if row.None? {
      return;
    }
    var rid := row.value.adRequestId;
    db.UpdateAdRequest(db.adRequests[rid].(updatedAt := now, status := outcome.AdRequestStatusOf()));
    var recipient := Recipient(outcome, row.value.walletAddress, row.value.paymentFromAddress);
    ledger.Release(row.value.escrowPrivateKey, row.value.escrowPublicKey, recipient, deal.agreedPrice);
  }

  /**
   * `onPostAlivenessVerified`: settle as completed. When the settlement join
   * finds its row, exactly one transfer of the agreed price goes to the
   * channel's wallet (`""` when the channel has none).
   */
  method OnPostAlivenessVerified(db: Database, ledger: Ledger, dealId: int, now: int)
    requires db.Valid()
    modifies db`deals, db`adRequests, ledger`transfers
    ensures db.Valid()
    ensures dealId !in old(db.deals) ==>
              db.deals == old(db.deals) && db.adRequests == old(db.adRequests) && ledger.transfers == old(ledger.transfers)
    ensures dealId in old(db.deals) ==>
              var row := old(SettlementRowOf(db, dealId, db.deals[dealId].applicationId));
              Settled(old(db.deals), old(db.adRequests), old(ledger.transfers), row, dealId, OutcomeCompleted, now,
                      db.deals, db.adRequests, ledger.transfers)
              && db.deals[dealId].status == Completed && db.deals[dealId].completedAt == Some(now)
              && (row.Some? ==>
                    ledger.transfers == old(ledger.transfers) +
                      [Transfer(row.value.escrowPrivateKey, row.value.escrowPublicKey,
                                row.value.walletAddress.OrElse(""), old(db.deals)[dealId].agreedPrice)])
  {
    SettleDeal(db, ledger, dealId, OutcomeCompleted, now);
  }

  /**
   * `onPostAlivenessFailed`: settle as cancelled. When the settlement join
   * finds its row, exactly one transfer of the agreed price goes back to the
   * payer's address (`""` when the payment has none).
   */
  method OnPostAlivenessFailed(db: Database, ledger: Ledger, dealId: int, now: int)
    requires db.Valid()
    modifies db`deals, db`adRequests, ledger`transfers
    ensures db.Valid()
    ensures dealId !in old(db.deals) ==>
              db.deals == old(db.deals) && db.adRequests == old(db.adRequests) && ledger.transfers == old(ledger.transfers)
    ensures dealId in old(db.deals) ==>
              var row := old(SettlementRowOf(db, dealId, db.deals[dealId].applicationId));
              Settled(old(db.deals), old(db.adRequests), old(ledger.transfers), row, dealId, OutcomeCancelled, now,
                      db.deals, db.adRequests, ledger.transfers)
              && db.deals[dealId].status == Cancelled && db.deals[dealId].cancelledAt == Some(now)
              && (row.Some? ==>
                    ledger.transfers == old(ledger.transfers) +
                      [Transfer(row.value.escrowPrivateKey, row.value.escrowPublicKey,
                                row.value.paymentFromAddress.OrElse(""), old(db.deals)[dealId].agreedPrice)])
  {
    SettleDeal(db, ledger, dealId, OutcomeCancelled, now);
  }
}
