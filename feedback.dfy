/**
 * The feedback route (apps/backend/src/routes/api/feedback/handlers.ts): one
 * side of a deal sends a message to the other. The advertiser writes to an
 * owner of the deal's channel, a channel admin to the advertiser. The
 * message is only logged, so no table changes.
 */
module FeedbackHandlers {
  import opened Wrappers
  import opened JsValues
  import opened Schema
  import opened Db
  import opened Helpers
  import opened FeedbackValidators

  const DealNotFound: string := "Deal not found"
  const OwnerNotFound: string := "Channel owner not found"
  const AccessDenied: string := "Access denied"
  const FeedbackSent: string := "Feedback sent successfully"

  datatype Sent = Sent(message: string, recipientId: int)

  /** Row `k` is an `owner` row of the channel. */
  ghost predicate OwnerRow(db: Database, k: int, channelId: int)
    reads db`channelAdmins
  {
    k in db.channelAdmins && db.channelAdmins[k].channelId == channelId && db.channelAdmins[k].role == Owner
  }

  /**
   * `handleSendFeedback`: the body needs a message of 1 to 1000 characters
   * (its `.parse` runs outside the `try`, so a refusal is the framework's
   * 500); 404 for an unknown deal. The advertiser's message goes to an owner
   * of the channel (404 when it has none), even when the advertiser also
   * administers the channel; an admin of the channel who is not the
   * advertiser writes to the advertiser; anyone else gets 403.
   */
  method SendFeedback(db: Database, dealId: int, json: Option<JsValue>, tid: int) returns (r: Reply<Sent>)
    ensures ParseSendFeedback(ParseBody(json)).None? ==> r == Failure(500, InternalServerError)
    ensures ParseSendFeedback(ParseBody(json)).Some? ==>
              (dealId !in db.deals ==> r == Failure(404, DealNotFound))
              && (dealId in db.deals ==>
                    var deal := db.deals[dealId];
                    (deal.advertiserId == tid && (forall k :: !OwnerRow(db, k, deal.channelId)) ==>
                       r == Failure(404, OwnerNotFound))
                    && (deal.advertiserId == tid && (exists k :: OwnerRow(db, k, deal.channelId)) ==>
                          r.Success? && r.data.message == FeedbackSent
                          && exists k :: OwnerRow(db, k, deal.channelId) && r.data.recipientId == db.channelAdmins[k].tgUserId)
                    && (deal.advertiserId != tid && db.IsAdminOf(deal.channelId, tid) ==>
                          r == Success(Sent(FeedbackSent, deal.advertiserId)))
                    && (deal.advertiserId != tid && !db.IsAdminOf(deal.channelId, tid) ==>
                          r == Failure(403, AccessDenied)))
  {
    var message := ParseSendFeedback(ParseBody(json));
    if message.None? {
      return Failure(500, InternalServerError);
    }
    if dealId !in db.deals {
      return Failure(404, DealNotFound);
    }
    var deal := db.deals[dealId];
    var recipient: int;
    if deal.advertiserId == tid {
      var owner := db.FindOwner(deal.channelId);
      if owner.None? {
        return Failure(404, OwnerNotFound);
      }
      var k: int := owner.value;
      assert OwnerRow(db, k, deal.channelId);
      recipient := db.channelAdmins[k].tgUserId;
    } else {
      var admin := db.FindAdmin(deal.channelId, tid);
      if admin.None? {
        return Failure(403, AccessDenied);
      }
      recipient := deal.advertiserId;
    }
    r := Success(Sent(FeedbackSent, recipient));
  }
}
