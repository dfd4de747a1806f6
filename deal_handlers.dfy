/**
 * The deal routes (apps/backend/src/routes/api/deals/handlers.ts): the deal
 * view with its latest creative, the payment of a deal, the escrow wallet
 * request and the "transaction sent" notice that starts the payment
 * confirmation job. `id` is the already parsed `:id` path parameter and `tid`
 * the Telegram id of the authenticated user.
 */
module DealHandlers {
  import opened Wrappers
  import opened JsValues
  import opened JsText
  import opened Schema
  import opened Db
  import opened JobQueue
  import opened Helpers
  import opened DealsValidators

  const DealNotFound: string := "Deal not found"
  const ValidationFailed: string := "invalid request body"

  // ---------------------------------------------------------------- transaction notice

  /**
   * `handleSubmitTransactionStatus`: the deal's payment becomes `confirming` and
   * one confirmation job for (deal, payment) is enqueued; the deal's status is
   * not looked at. Without a payment the update returns no row and reading its
   * id fails, which the handler answers with 500.
   */
  method SubmitTransactionStatus(db: Database, jobs: Queues, id: int) returns (r: Reply<string>)
    requires db.Valid()
    modifies db`payments, jobs`paymentConfirmation
    ensures db.Valid()
    ensures id !in old(db.deals) ==>
              r == Failure(404, DealNotFound) && db.payments == old(db.payments)
              && jobs.paymentConfirmation == old(jobs.paymentConfirmation)
    ensures id in old(db.deals) && (forall k :: k in old(db.payments) ==> old(db.payments)[k].dealId != id) ==>
              r == Failure(500, "Failed to set status") && db.payments == old(db.payments)
              && jobs.paymentConfirmation == old(jobs.paymentConfirmation)
    ensures r.Success? ==>
              r.data == "Status set, waiting for network confirmation!"
              && id in old(db.deals)
              && exists k :: (k in old(db.payments) && old(db.payments)[k].dealId == id
                 && db.payments == old(db.payments)[k := old(db.payments)[k].(status := Confirming)]
                 && jobs.paymentConfirmation == old(jobs.paymentConfirmation)
                      + [Job("verify", PaymentConfirmationJob(id, k), PaymentJobOptions)])
    ensures id in old(db.deals) && (exists k :: k in old(db.payments) && old(db.payments)[k].dealId == id) ==> r.Success?
  {
    if id !in db.deals {
      return Failure(404, DealNotFound);
    }
    var payment := db.FindPaymentOfDeal(id);
    if payment.None? {
      return Failure(500, "Failed to set status");
    }
    var k := payment.value;
    db.UpdatePayment(db.payments[k].(status := Confirming));
    jobs.AddPaymentConfirmation(id, k);
    r := Success("Status set, waiting for network confirmation!");
  }

  // ---------------------------------------------------------------- escrow wallet

  /** The key pair `createEscrowWallet` generated for this request. */
  datatype GeneratedWallet = GeneratedWallet(address: string, publicKey: string, privateKey: string)

  /**
   * `handleGetPaymentWallet`: the body must carry a `userWallet` of at least 10
   * characters (422 otherwise, before anything else). For an existing deal a
   * fresh escrow wallet row is stored, and the deal's payment is upserted on
   * `deal_id`: a new payment holds the agreed price in escrow from the user's
   * wallet to the new address; an existing one only has its two addresses and
   * its escrow wallet replaced.
   */
  method GetPaymentWallet(db: Database, id: int, json: Option<JsValue>, generated: GeneratedWallet, now: int)
    returns (r: Reply<Payment>)
    requires db.Valid()
    modifies db`escrowWallets, db`payments, db`nextId
    ensures db.Valid()
    ensures ParseGetWalletForDeal(ParseBody(json)).None? ==>
              r == Failure(422, ValidationFailed) && db.escrowWallets == old(db.escrowWallets) && db.payments == old(db.payments)
    ensures ParseGetWalletForDeal(ParseBody(json)).Some? && id !in old(db.deals) ==>
              r == Failure(404, DealNotFound) && db.escrowWallets == old(db.escrowWallets) && db.payments == old(db.payments)
    ensures r.Success? ==>
              var userWallet := ParseGetWalletForDeal(ParseBody(json)).value;
              var w := old(db.nextId);
              var p := r.data;
              id in old(db.deals) && Utf16Length(userWallet) >= 10
              && w !in old(db.escrowWallets)
              && db.escrowWallets == old(db.escrowWallets)[w := EscrowWallet(w, generated.address, generated.publicKey, generated.privateKey)]
              && p.dealId == id && p.escrowWallet == w
              && p.fromAddress == Some(userWallet) && p.toAddress == Some(generated.address)
              && db.payments == old(db.payments)[p.id := p]
              && (p.id in old(db.payments) ==>
                    old(db.payments)[p.id].dealId == id
                    && p == old(db.payments)[p.id].(fromAddress := Some(userWallet), toAddress := Some(generated.address), escrowWallet := w))
              && (p.id !in old(db.payments) ==>
                    (forall k :: k in old(db.payments) ==> old(db.payments)[k].dealId != id)
                    && p == NewPayment(p.id, id, w, EscrowHold, old(db.deals)[id].agreedPrice,
                                       Some(userWallet), Some(generated.address), now))
    ensures ParseGetWalletForDeal(ParseBody(json)).Some? && id in old(db.deals) ==> r.Success?
  {
    var userWallet := ParseGetWalletForDeal(ParseBody(json));
    if userWallet.None? {
      return Failure(422, ValidationFailed);
    }
    if id !in db.deals {
      return Failure(404, DealNotFound);
    }
    var deal := db.deals[id];
    var w := db.InsertEscrowWallet(generated.address, generated.publicKey, generated.privateKey);
    var existing := db.FindPaymentOfDeal(id);
    var p: Payment;
    if existing.Some? {
      assert db.KeysValid() && db.PaymentsKeyed();
      assert db.payments[existing.value].id == existing.value;
      p := db.payments[existing.value].(fromAddress := Some(userWallet.value), toAddress := Some(generated.address), escrowWallet := w);
      db.UpdatePayment(p);
    } else {
      var pid := db.NextId();
      p := NewPayment(pid, id, w, EscrowHold, deal.agreedPrice, Some(userWallet.value), Some(generated.address), now);
      db.InsertPayment(p);
    }
    r := Success(p);
  }

  // ---------------------------------------------------------------- payment of a deal

  /**
   * `handleGetDealPayment`: 404 for a missing deal, otherwise the deal's payment,
   * absent (`undefined`) when none was requested yet.
   */
  method GetDealPayment(db: Database, id: int) returns (r: Reply<Option<Payment>>)
    requires db.Valid()
    ensures id !in db.deals <==> r == Failure(404, DealNotFound)
    ensures r.Success? ==> (r.data.Some? <==> exists k :: k in db.payments && db.payments[k].dealId == id)
    ensures r.Success? && r.data.Some? ==> r.data.value in db.payments.Values && r.data.value.dealId == id
  {
    if id !in db.deals {
      return Failure(404, DealNotFound);
    }
    var found := db.FindPaymentOfDeal(id);
    if found.None? {
      return Success(None);
    }
    var key: int := found.value;
    var payment := db.payments[key];
    assert key in db.payments && db.payments[key].dealId == id;
    assert payment in db.payments.Values;
    r := Success(Some(payment));
  }

  // ---------------------------------------------------------------- deal view

  datatype UserRole = AdvertiserRole | ChannelOwnerRole
  {
    function Name(): string
    {
      if this.AdvertiserRole? then "advertiser" else "channel_owner"
    }
  }

  /** The channel part of the deal view, with the defaults of the response. */
  datatype ChannelSummary = ChannelSummary(
    id: int, title: Option<string>, tgId: string, tgLink: string, subCount: int, avgPostReach: int)

  datatype AdRequestSummary = AdRequestSummary(
    id: int, title: string, description: Option<string>, budget: int, contentGuidelines: Option<string>)

  /** A creative as the deal view shows it: `mediaUrls` is never null. */
  datatype CreativeView = CreativeView(
    id: int, version: int, content: string, mediaUrls: seq<string>, status: CreativeStatus,
    submittedAt: Option<int>, reviewedAt: Option<int>, createdAt: int)

  /** The deal view; `deal` carries the deal's own columns (the response leaves out `tgPostId`). */
  datatype DealDetails = DealDetails(
    deal: Deal, channel: ChannelSummary, adRequest: AdRequestSummary,
    applicationId: int, applicationStatus: ApplicationStatus, advertiser: User,
    creative: Option<CreativeView>, userRole: UserRole)

  function ViewOfCreative(c: Creative): (v: CreativeView)
    ensures v.mediaUrls == c.mediaUrls.OrElse([]) && v.version == c.version && v.content == c.content
    ensures v.status == c.status && v.id == c.id
  {
    CreativeView(c.id, c.version, c.content, c.mediaUrls.OrElse([]), c.status, c.submittedAt, c.reviewedAt, c.createdAt)
  }

  function SummaryOfChannel(c: Channel): (s: ChannelSummary)
    ensures s.subCount == c.subCount.OrElse(0) && s.avgPostReach == c.avgPostReach.OrElse(0)
    ensures s.tgId == IntToString(c.tgId) && s.tgLink == c.tgLink && s.id == c.id && s.title == c.title
  {
    ChannelSummary(c.id, c.title, IntToString(c.tgId), c.tgLink, c.subCount.OrElse(0), c.avgPostReach.OrElse(0))
  }

  /** The inner joins of the view: application, its ad request, the channel and the advertiser's user row. */
  predicate Joinable(db: Database, d: Deal)
    reads db
  {
    d.applicationId in db.applications && db.applications[d.applicationId].adRequestId in db.adRequests
    && d.channelId in db.channels && d.advertiserId in db.users
  }

  /**
   * `handleGetDealById`: 404 for a missing deal; 403 unless the user is the
   * advertiser or an admin (any role) of the deal's channel; 404 when a joined
   * row is missing. The creative shown is one of highest version, drafts
   * excluded when the advertiser is looking. The role is "advertiser" exactly
   * when the user is the deal's advertiser.
   */
  method GetDealById(db: Database, id: int, tid: int) returns (r: Reply<DealDetails>)
    requires db.Valid()
    ensures id !in db.deals ==> r == Failure(404, DealNotFound)
    ensures id in db.deals && db.deals[id].advertiserId != tid && !db.IsAdminOf(db.deals[id].channelId, tid) ==>
              r == Failure(403, "Access denied")
    ensures (id in db.deals && (db.deals[id].advertiserId == tid || db.IsAdminOf(db.deals[id].channelId, tid))
             && !Joinable(db, db.deals[id])) ==> r == Failure(404, DealNotFound)
    ensures r.Success? ==>
              id in db.deals && Joinable(db, db.deals[id])
              && var d := db.deals[id];
              var isAdvertiser := d.advertiserId == tid;
              (isAdvertiser || db.IsAdminOf(d.channelId, tid))
              && r.data.deal == d
              && r.data.userRole == (if isAdvertiser then AdvertiserRole else ChannelOwnerRole)
              && r.data.channel == SummaryOfChannel(db.channels[d.channelId])
              && r.data.advertiser == db.users[d.advertiserId]
              && r.data.applicationStatus == db.applications[d.applicationId].status
              && r.data.applicationId == d.applicationId
              && r.data.adRequest.id == db.applications[d.applicationId].adRequestId
              && var req := db.adRequests[db.applications[d.applicationId].adRequestId];
              r.data.adRequest == AdRequestSummary(req.id, req.title, req.description, req.budget, req.contentGuidelines)
              && (r.data.creative.None? <==> forall k :: !db.CreativeOfDeal(k, id, isAdvertiser))
              && (r.data.creative.Some? ==>
                    exists k :: db.CreativeOfDeal(k, id, isAdvertiser) && r.data.creative.value == ViewOfCreative(db.creatives[k])
                      && forall j :: db.CreativeOfDeal(j, id, isAdvertiser) ==> db.creatives[j].version <= db.creatives[k].version)
    ensures (id in db.deals && (db.deals[id].advertiserId == tid || db.IsAdminOf(db.deals[id].channelId, tid))
             && Joinable(db, db.deals[id])) ==> r.Success?
    ensures r.Success? && r.data.userRole == AdvertiserRole && r.data.creative.Some? ==> r.data.creative.value.status != Draft
  {
    if id !in db.deals {
      return Failure(404, DealNotFound);
    }
    var d := db.deals[id];
    var isAdvertiser := d.advertiserId == tid;
    var admin := db.FindAdmin(d.channelId, tid);
    if !(isAdvertiser || admin.Some?) {
      return Failure(403, "Access denied");
    }
    if !Joinable(db, d) {
      return Failure(404, DealNotFound);
    }
    var app := db.applications[d.applicationId];
    var req := db.adRequests[app.adRequestId];
    var latest := db.LatestCreative(id, isAdvertiser);
    var creative := if latest.Some? then Some(ViewOfCreative(db.creatives[latest.value])) else None;
    r := Success(DealDetails(
      d, SummaryOfChannel(db.channels[d.channelId]),
      AdRequestSummary(req.id, req.title, req.description, req.budget, req.contentGuidelines),
      d.applicationId, app.status, db.users[d.advertiserId], creative,
      if isAdvertiser then AdvertiserRole else ChannelOwnerRole));
  }
}
