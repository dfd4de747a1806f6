/**
 * The three background job queues (apps/backend/src/queue/index.ts): payment
 * confirmation, scheduled posting and post aliveness. A queue is the sequence
 * of jobs added to it; a job carries its name, its payload and the options it
 * was added with. `now` stands for `Date.now()`.
 */
module JobQueue {
  import opened Wrappers

  /** Milliseconds between two blockchain checks for one payment. */
  const BlockchainCheckInterval: nat := 60_000
  /** Number of blockchain checks before a payment confirmation job gives up. */
  const BlockchainMaxAttempts: nat := 1440
  /** Milliseconds between publication and the aliveness check. */
  const PostAlivenessCheckDelay: nat := 86_400_000

  datatype Backoff = Fixed(delay: nat)

  /** Options given to `queue.add`; `None` leaves the queue library's default. */
  datatype JobOptions = JobOptions(delay: nat, attempts: Option<nat>, backoff: Option<Backoff>)

  datatype PaymentConfirmationJob = PaymentConfirmationJob(dealId: int, paymentId: int)
  datatype ScheduledPostingJob = ScheduledPostingJob(dealId: int)
  datatype PostAlivenessJob = PostAlivenessJob(postId: int, dealId: int)

  datatype Job<T> = Job(name: string, data: T, opts: JobOptions)

  /** The options of a payment confirmation job: retried every minute, at most 1440 times. */
  const PaymentJobOptions: JobOptions :=
    JobOptions(0, Some(BlockchainMaxAttempts), Some(Fixed(BlockchainCheckInterval)))

  /**
   * The delay before a post scheduled at `publishAt` is published, or `None`
   * when that moment is not in the future (the source throws).
   */
  function PublishDelay(publishAt: int, now: int): (r: Option<nat>)
    ensures r.Some? <==> publishAt > now
    ensures r.Some? ==> r.value > 0 && now + r.value == publishAt
  {
    var delay := publishAt - now;
    if delay <= 0 then None else Some(delay)
  }

  /** What the queue does with a job after one attempt. */
  datatype Disposition = Finished | RetryAfter(wait: nat) | GiveUp

  /**
   * The retry rule the job options ask for: an attempt that throws is retried
   * after the fixed backoff while fewer than `attempts` attempts were made; a
   * job without `attempts` runs once.
   */
  function AfterAttempt(opts: JobOptions, attemptsMade: nat, threw: bool): (d: Disposition)
    requires attemptsMade >= 1
    ensures !threw <==> d == Finished
    ensures d.RetryAfter? ==> opts.attempts.Some? && attemptsMade < opts.attempts.value
    ensures d.RetryAfter? ==> d.wait == (if opts.backoff.Some? then opts.backoff.value.delay else 0)
  {
    if !threw then Finished
    else if opts.attempts.Some? && attemptsMade < opts.attempts.value then
      RetryAfter(if opts.backoff.Some? then opts.backoff.value.delay else 0)
    else GiveUp
  }

  /**
   * A payment that never shows up on chain is checked 1440 times, one minute
   * apart: the last check happens one minute short of a day after the first,
   * the same span as the aliveness delay.
   */
  lemma PaymentRetryWindow(attemptsMade: nat)
    requires 1 <= attemptsMade
    ensures attemptsMade < BlockchainMaxAttempts ==>
              AfterAttempt(PaymentJobOptions, attemptsMade, true) == RetryAfter(BlockchainCheckInterval)
    ensures attemptsMade >= BlockchainMaxAttempts ==> AfterAttempt(PaymentJobOptions, attemptsMade, true) == GiveUp
  {
  }

  class Queues {
    var paymentConfirmation: seq<Job<PaymentConfirmationJob>>
    var scheduledPosting: seq<Job<ScheduledPostingJob>>
    var postAliveness: seq<Job<PostAlivenessJob>>

    constructor ()
      ensures paymentConfirmation == [] && scheduledPosting == [] && postAliveness == []
    {
      paymentConfirmation, scheduledPosting, postAliveness := [], [], [];
    }

    /** `addPaymentConfirmation`: one "verify" job, retried every minute up to 1440 attempts. */
    method AddPaymentConfirmation(dealId: int, paymentId: int)
      modifies this`paymentConfirmation
      ensures paymentConfirmation ==
              old(paymentConfirmation) + [Job("verify", PaymentConfirmationJob(dealId, paymentId), PaymentJobOptions)]
    {
      paymentConfirmation := paymentConfirmation +
        [Job("verify", PaymentConfirmationJob(dealId, paymentId), PaymentJobOptions)];
    }

    /**
     * `addScheduledPost`: one "publish" job delayed until `publishAt`; when that
     * moment is not in the future it throws and nothing is enqueued.
     */
    method AddScheduledPost(dealId: int, publishAt: int, now: int) returns (r: Outcome<()>)
      modifies this`scheduledPosting
      ensures r.Returned? <==> publishAt > now
      ensures r.Threw? ==> r.error == "Publish date must be in the future" && scheduledPosting == old(scheduledPosting)
      ensures r.Returned? ==>
              scheduledPosting == old(scheduledPosting) +
                [Job("publish", ScheduledPostingJob(dealId), JobOptions(publishAt - now, None, None))]
    {
      var delay := PublishDelay(publishAt, now);
      if delay.None? {
        return Threw("Publish date must be in the future");
      }
      scheduledPosting := scheduledPosting +
        [Job("publish", ScheduledPostingJob(dealId), JobOptions(delay.value, None, None))];
      r := Returned(());
    }

    /** `addPostAlivenessCheck`: one "check" job a day later. */
    method AddPostAlivenessCheck(dealId: int, postId: int)
      modifies this`postAliveness
      ensures postAliveness ==
              old(postAliveness) + [Job("check", PostAlivenessJob(postId, dealId), JobOptions(PostAlivenessCheckDelay, None, None))]
    {
      postAliveness := postAliveness +
        [Job("check", PostAlivenessJob(postId, dealId), JobOptions(PostAlivenessCheckDelay, None, None))];
    }
  }
}
