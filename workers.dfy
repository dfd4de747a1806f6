/**
 * The three queue workers (apps/backend/src/queue/queue-workers.ts), one job
 * at a time. A worker that throws (`Threw`) tells the queue to retry the job
 * under its options; the state it wrote before throwing stays written.
 */
module Workers {
  import opened Wrappers
  import opened Schema
  import opened Db
  import opened JobQueue
  import opened Gateways
  import opened DealFlow

  datatype PaymentConfirmationResult = PaymentConfirmationResult(confirmed: bool, timestamp: int)
  datatype ScheduledPostingResult = ScheduledPostingResult(published: bool, publishedAt: int)
  datatype PostAlivenessResult = PostAlivenessResult(isAlive: bool, status: string)

  /**
   * The payment confirmation worker: unless the chain reports the transfer as
   * received with a non-empty hash it throws and changes nothing. Otherwise
   * it runs `updatePaymentStatus` with that hash: the payment is confirmed and
   * the deal scheduled, and the worker reports `confirmed` when the deal's
   * publish job was enqueued; a missing deal or a scheduled time already past
   * throws after those writes, so the job is retried over written rows.
   */
  method PaymentConfirmationWorker(db: Database, jobs: Queues, job: PaymentConfirmationJob, check: ChainCheck, now: int)
    returns (r: Outcome<PaymentConfirmationResult>)
    requires db.Valid()
    modifies db`payments, db`deals, jobs`scheduledPosting
    ensures db.Valid()
    ensures var c := old(CheckBlockchainConfirmation(db, job.paymentId, check));
            !(c.Returned? && c.value.received && Filled(c.value.hash)) ==>
              r.Threw? && db.payments == old(db.payments) && db.deals == old(db.deals)
              && jobs.scheduledPosting == old(jobs.scheduledPosting)
    ensures var c := old(CheckBlockchainConfirmation(db, job.paymentId, check));
            c.Returned? && c.value.received && Filled(c.value.hash) ==>
              db.payments == (if job.paymentId in old(db.payments)
                              then old(db.payments)[job.paymentId :=
                                     ConfirmedPayment(old(db.payments)[job.paymentId], c.value.hash.value, now)]
                              else old(db.payments))
              && db.deals == (if job.dealId in old(db.deals)
                              then old(db.deals)[job.dealId := old(db.deals)[job.dealId].(updatedAt := now, status := Scheduled)]
                              else old(db.deals))
              && (job.dealId !in old(db.deals) ==> r.Threw? && jobs.scheduledPosting == old(jobs.scheduledPosting))
              && (job.dealId in old(db.deals) ==>
                    var at := old(db.deals)[job.dealId].scheduledPostAt;
                    (at > now ==>
                       r == Returned(PaymentConfirmationResult(true, now))
                       && jobs.scheduledPosting == old(jobs.scheduledPosting) +
                            [Job("publish", ScheduledPostingJob(job.dealId), JobOptions(at - now, None, None))])
                    && (at <= now ==> r.Threw? && jobs.scheduledPosting == old(jobs.scheduledPosting)))
  {
    var c := CheckBlockchainConfirmation(db, job.paymentId, check);
    if c.Threw? {
      return Threw(c.error);
    }
    if !(c.value.received && Filled(c.value.hash)) {
      return Threw("Transaction not confirmed yet");
    }
    var updated := UpdatePaymentStatus(db, jobs, job.dealId, job.paymentId, c.value.hash.value, now);
    if updated.Threw? {
      return Threw(updated.error);
    }
    r := Returned(PaymentConfirmationResult(true, now));
  }

  /** The message id the gateway reports for sending creative `c` of the deal to the deal's channel, if any. */
  ghost predicate SentAs(db: Database, deals: map<int, Deal>, dealId: int, c: int, send: SendText, postId: int)
    reads db
    requires dealId in deals && deals[dealId].channelId in db.channels && c in db.creatives
  {
    send(db.channels[deals[dealId].channelId].tgId, db.creatives[c].content) == Returned(Some(postId))
  }

  /**
   * The scheduled posting worker: it throws when publishing fails or yields a
   * falsy post id (then the deal is not marked posted and no check is
   * enqueued); otherwise, with the id the gateway gave for one of the deal's
   * approved creatives, it marks the deal posted and then enqueues exactly one
   * aliveness check for that deal and post.
   */
  method ScheduledPostingWorker(db: Database, jobs: Queues, job: ScheduledPostingJob, send: SendText, now: int)
    returns (r: Outcome<ScheduledPostingResult>)
    requires db.Valid()
    modifies db`deals, jobs`postAliveness
    ensures db.Valid()
    ensures r.Threw? ==> db.deals == old(db.deals) && jobs.postAliveness == old(jobs.postAliveness)
    ensures old(!Publishable(db, job.dealId) || !db.HasActiveSession()) ==> r.Threw?
    ensures old(Publishable(db, job.dealId) && db.HasActiveSession())
            && (forall c :: c in db.creatives && db.creatives[c].dealId == job.dealId && db.creatives[c].status == Approved ==>
                  exists postId :: postId != 0 && SentAs(db, old(db.deals), job.dealId, c, send, postId))
            ==> r.Returned?
    ensures r.Returned? ==>
              r.value == ScheduledPostingResult(true, now)
              && job.dealId in old(db.deals) && old(db.deals)[job.dealId].channelId in db.channels
              && exists c, postId ::
                   c in db.creatives && db.creatives[c].dealId == job.dealId && db.creatives[c].status == Approved
                   && postId != 0 && SentAs(db, old(db.deals), job.dealId, c, send, postId)
                   && db.deals == old(db.deals)[job.dealId :=
                        old(db.deals)[job.dealId].(updatedAt := now, status := Posted, tgPostId := Some(postId))]
                   && jobs.postAliveness == old(jobs.postAliveness) +
                        [Job("check", PostAlivenessJob(postId, job.dealId), JobOptions(PostAlivenessCheckDelay, None, None))]
  {
    var success, postId := PublishPost(db, job.dealId, send);
    if !success {
      return Threw("Failed to publish post");
    }
    if postId.value == 0 {
      return Threw("Post published but no postId returned");
    }
    ghost var c :| c in db.creatives && db.creatives[c].dealId == job.dealId && db.creatives[c].status == Approved
                   && send(db.channels[db.deals[job.dealId].channelId].tgId, db.creatives[c].content) == Returned(Some(postId.value));
    UpdateStatusAsPosted(db, job.dealId, postId.value, now);
    jobs.AddPostAlivenessCheck(job.dealId, postId.value);
    assert SentAs(db, old(db.deals), job.dealId, c, send, postId.value);
    r := Returned(ScheduledPostingResult(true, now));
  }

  /**
   * The post aliveness worker: settles the deal as completed (paying the
   * channel) when the post is found and as cancelled (refunding the payer)
   * when it is not, and reports which.
   */
  method PostAlivenessWorker(db: Database, ledger: Ledger, job: PostAlivenessJob, fetch: FetchMessage, now: int)
    returns (r: PostAlivenessResult)
    requires db.Valid()
    modifies db`deals, db`adRequests, ledger`transfers
    ensures db.Valid()
    ensures var alive := old(job.dealId in db.deals && db.deals[job.dealId].channelId in db.channels && db.HasActiveSession()
                             && fetch(db.channels[db.deals[job.dealId].channelId].tgId, job.postId) == Returned(true));
            r == (if alive then PostAlivenessResult(true, "alive") else PostAlivenessResult(false, "failed"))
    ensures job.dealId !in old(db.deals) ==>
              db.deals == old(db.deals) && db.adRequests == old(db.adRequests) && ledger.transfers == old(ledger.transfers)
    ensures job.dealId in old(db.deals) ==>
              var outcome := if r.isAlive then OutcomeCompleted else OutcomeCancelled;
              Settled(old(db.deals), old(db.adRequests), old(ledger.transfers),
                      old(SettlementRowOf(db, job.dealId, db.deals[job.dealId].applicationId)), job.dealId, outcome, now,
                      db.deals, db.adRequests, ledger.transfers)
  {
    var isAlive := VerifyPostAliveness(db, job.dealId, job.postId, fetch);
    if !isAlive {
      OnPostAlivenessFailed(db, ledger, job.dealId, now);
      return PostAlivenessResult(false, "failed");
    }
    OnPostAlivenessVerified(db, ledger, job.dealId, now);
    r := PostAlivenessResult(true, "alive");
  }
}
