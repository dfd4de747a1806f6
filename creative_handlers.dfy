/**
 * The creative routes (apps/backend/src/routes/api/creatives/handlers.ts):
 * listing and reading a deal's creatives, creating a new version, and the
 * update through which the channel side submits a creative and the
 * advertiser approves it or asks for a revision. Creating and reviewing a
 * creative are what move a deal through `awaiting_creative`,
 * `creative_submitted` and `awaiting_payment`. `tid` is the Telegram id of
 * the authenticated user; path parameters arrive parsed.
 */
module CreativeHandlers {
  import opened Wrappers
  import opened JsValues
  import opened Schema
  import opened Db
  import opened Helpers
  import opened CreativesValidators

  const DealNotFound: string := "Deal not found"
  const CreativeNotFound: string := "Creative not found"
  const AccessDenied: string := "Access denied"

  /** A creative as the routes answer it: a null `mediaUrls` is sent as `[]`. */
  function Formatted(c: Creative): (f: Creative)
    ensures f.mediaUrls.Some? && (c.mediaUrls.Some? ==> f == c)
    ensures c.mediaUrls.None? ==> f.mediaUrls == Some([])
    ensures f.(mediaUrls := c.mediaUrls) == c
  {
    c.(mediaUrls := Some(c.mediaUrls.OrElse([])))
  }

  /** No two creatives of one deal share a version number. */
  ghost predicate VersionsUnique(db: Database)
    reads db
  {
    UniqueVersions(db.creatives)
  }

  ghost predicate UniqueVersions(cs: map<int, Creative>)
  {
    forall a, b :: (a in cs && b in cs && cs[a].dealId == cs[b].dealId && cs[a].version == cs[b].version) ==> a == b
  }

  /** A new creative whose version is above every version of its deal keeps the versions unique. */
  lemma InsertKeepsVersionsUnique(cs: map<int, Creative>, c: Creative)
    requires UniqueVersions(cs) && c.id !in cs
    requires forall k :: k in cs && cs[k].dealId == c.dealId ==> cs[k].version < c.version
    ensures UniqueVersions(cs[c.id := c])
  {
  }

  // ---------------------------------------------------------------- reading

  /**
   * `handleGetCreativesByDeal` as written: 404 for a missing deal, 403 unless
   * the user is the advertiser or an admin (any role) of the deal's channel.
   * The listing query then names `dealCreativesTable.reviewNote`, a column the
   * table does not have; the query builder walks that `undefined` selection
   * and throws, and the catch answers 500. So no caller ever gets a listing.
   */
  method GetCreativesByDeal(db: Database, dealId: int, tid: int) returns (r: Reply<seq<Creative>>)
    requires db.Valid()
    ensures dealId !in db.deals ==> r == Failure(404, DealNotFound)
    ensures dealId in db.deals && db.deals[dealId].advertiserId != tid && !db.IsAdminOf(db.deals[dealId].channelId, tid) ==>
              r == Failure(403, AccessDenied)
    ensures dealId in db.deals && (db.deals[dealId].advertiserId == tid || db.IsAdminOf(db.deals[dealId].channelId, tid)) ==>
              r == Failure(500, "Failed to fetch creatives")
  {
    if dealId !in db.deals {
      return Failure(404, DealNotFound);
    }
    var deal := db.deals[dealId];
    var admin := db.FindAdmin(deal.channelId, tid);
    if !(deal.advertiserId == tid || admin.Some?) {
      return Failure(403, AccessDenied);
    }
    r := Failure(500, "Failed to fetch creatives");
  }

  /**
   * `handleGetCreativesByDeal` as intended, selecting only existing columns:
   * the same 404 and 403 guards, then every creative of the deal, once each,
   * highest version first.
   */
  method GetCreativesByDealIntended(db: Database, dealId: int, tid: int) returns (r: Reply<seq<Creative>>)
    requires db.Valid()
    ensures dealId !in db.deals ==> r == Failure(404, DealNotFound)
    ensures dealId in db.deals && db.deals[dealId].advertiserId != tid && !db.IsAdminOf(db.deals[dealId].channelId, tid) ==>
              r == Failure(403, AccessDenied)
    ensures dealId in db.deals && (db.deals[dealId].advertiserId == tid || db.IsAdminOf(db.deals[dealId].channelId, tid)) ==>
              r.Success?
    ensures r.Success? ==>
              (forall i :: 0 <= i < |r.data| ==>
                 r.data[i].id in db.creatives && r.data[i].dealId == dealId
                 && r.data[i] == Formatted(db.creatives[r.data[i].id]))
              && (forall k :: db.CreativeOfDeal(k, dealId, false) ==> exists i :: 0 <= i < |r.data| && r.data[i].id == k)
              && (forall i, j :: 0 <= i < j < |r.data| ==> r.data[i].id != r.data[j].id)
              && (forall i, j :: 0 <= i < j < |r.data| ==> r.data[j].version <= r.data[i].version)
  {
    if dealId !in db.deals {
      return Failure(404, DealNotFound);
    }
    var deal := db.deals[dealId];
    var admin := db.FindAdmin(deal.channelId, tid);
    if !(deal.advertiserId == tid || admin.Some?) {
      return Failure(403, AccessDenied);
    }
    var ks := db.CreativesByVersion(dealId);
    assert db.KeysValid() && db.CreativesKeyed();
    var list := seq(|ks|, i requires 0 <= i < |ks| && ks[i] in db.creatives reads db => Formatted(db.creatives[ks[i]]));
    assert forall i :: 0 <= i < |ks| ==> list[i].id == ks[i];
    forall k | db.CreativeOfDeal(k, dealId, false) ensures exists i :: 0 <= i < |list| && list[i].id == k {
      assert k in ks;
      var i :| 0 <= i < |ks| && ks[i] == k;
      assert list[i].id == k;
    }
    r := Success(list);
  }

  /**
   * `handleGetCreativeById`: 404 for a missing creative or deal, 403 unless
   * the user is the advertiser or an admin of the deal's channel.
   */
  method GetCreativeById(db: Database, id: int, tid: int) returns (r: Reply<Creative>)
    requires db.Valid()
    ensures id !in db.creatives ==> r == Failure(404, CreativeNotFound)
    ensures id in db.creatives && db.creatives[id].dealId !in db.deals ==> r == Failure(404, DealNotFound)
    ensures r.Success? ==>
              id in db.creatives && db.creatives[id].dealId in db.deals
              && r.data == Formatted(db.creatives[id])
              && var d := db.deals[db.creatives[id].dealId];
              (d.advertiserId == tid || db.IsAdminOf(d.channelId, tid))
    ensures id in db.creatives && db.creatives[id].dealId in db.deals ==>
              var d := db.deals[db.creatives[id].dealId];
              (r.Success? <==> d.advertiserId == tid || db.IsAdminOf(d.channelId, tid))
              && (r.Failure? ==> r == Failure(403, AccessDenied))
  {
    if id !in db.creatives {
      return Failure(404, CreativeNotFound);
    }
    var creative := db.creatives[id];
    if creative.dealId !in db.deals {
      return Failure(404, DealNotFound);
    }
    var deal := db.deals[creative.dealId];
    var admin := db.FindAdmin(deal.channelId, tid);
    if !(deal.advertiserId == tid || admin.Some?) {
      return Failure(403, AccessDenied);
    }
    r := Success(Formatted(creative));
  }

  // ---------------------------------------------------------------- creating

  /**
   * `handleCreateCreative`: after the body validates (a failed `.parse` escapes
   * the handler), 404 for a missing deal and 403 unless the user is an admin of
   * the deal's channel. Otherwise a `draft` is stored whose version is one
   * more than the deal's highest, or 1 for the first, and the deal goes back
   * to `awaiting_creative` whatever its status was.
   */
  method CreateCreative(db: Database, dealId: int, json: Option<JsValue>, tid: int, now: int)
    returns (r: Reply<Creative>)
    requires db.Valid()
    modifies db`creatives, db`deals, db`nextId
    ensures db.Valid()
    ensures old(VersionsUnique(db)) ==> VersionsUnique(db)
    ensures r.Failure? ==> db.creatives == old(db.creatives) && db.deals == old(db.deals) && db.nextId == old(db.nextId)
    ensures ParseCreateCreative(ParseBody(json)).None? ==> r == Failure(500, InternalServerError)
    ensures ParseCreateCreative(ParseBody(json)).Some? && dealId !in old(db.deals) ==> r == Failure(404, DealNotFound)
    ensures ParseCreateCreative(ParseBody(json)).Some? && dealId in old(db.deals) ==>
              (r.Success? <==> old(db.IsAdminOf(db.deals[dealId].channelId, tid)))
              && (r.Failure? ==> r == Failure(403, "Only channel owners can create creatives"))
    ensures r.Success? ==>
              var body := ParseCreateCreative(ParseBody(json)).value;
              var c := r.data;
              dealId in old(db.deals)
              && c.id !in old(db.creatives) && db.creatives == old(db.creatives)[c.id := c]
              && c.dealId == dealId && c.status == Draft && c.content == body.content
              && c.mediaUrls == Some(body.mediaUrls.OrElse([]))
              && c.submittedAt.None? && c.reviewedAt.None? && c.createdAt == now
              && (forall k :: k in old(db.creatives) && old(db.creatives)[k].dealId == dealId ==>
                                old(db.creatives)[k].version < c.version)
              && ((forall k :: k in old(db.creatives) ==> old(db.creatives)[k].dealId != dealId) ==> c.version == 1)
              && ((exists k :: k in old(db.creatives) && old(db.creatives)[k].dealId == dealId) ==>
                    exists k :: k in old(db.creatives) && old(db.creatives)[k].dealId == dealId
                                && c.version == old(db.creatives)[k].version + 1)
              && db.deals == old(db.deals)[dealId := old(db.deals)[dealId].(status := AwaitingCreative, updatedAt := now)]
  {
    var body := ParseCreateCreative(ParseBody(json));
    if body.None? {
      return Failure(500, InternalServerError);
    }
    if dealId !in db.deals {
      return Failure(404, DealNotFound);
    }
    var deal := db.deals[dealId];
    var admin := db.FindAdmin(deal.channelId, tid);
    if admin.None? {
      return Failure(403, "Only channel owners can create creatives");
    }
    var c := StoreDraft(db, dealId, body.value, now);
    r := Success(c);
  }

  /**
   * The writes of `handleCreateCreative`: the draft is inserted under a fresh
   * id with the deal's next version, and the deal goes back to `awaiting_creative`.
   */
  method StoreDraft(db: Database, dealId: int, body: CreateCreativeParam, now: int) returns (c: Creative)
    requires db.Valid() && dealId in db.deals
    modifies db`creatives, db`deals, db`nextId
    ensures db.Valid()
    ensures old(VersionsUnique(db)) ==> VersionsUnique(db)
    ensures c.id !in old(db.creatives) && db.creatives == old(db.creatives)[c.id := c]
    ensures c.dealId == dealId && c.status == Draft && c.content == body.content
    ensures c.mediaUrls == Some(body.mediaUrls.OrElse([]))
    ensures c.submittedAt.None? && c.reviewedAt.None? && c.createdAt == now
    ensures forall k :: k in old(db.creatives) && old(db.creatives)[k].dealId == dealId ==>
                          old(db.creatives)[k].version < c.version
    ensures (forall k :: k in old(db.creatives) ==> old(db.creatives)[k].dealId != dealId) ==> c.version == 1
    ensures (exists k :: k in old(db.creatives) && old(db.creatives)[k].dealId == dealId) ==>
              exists k :: k in old(db.creatives) && old(db.creatives)[k].dealId == dealId
                          && c.version == old(db.creatives)[k].version + 1
    ensures db.deals == old(db.deals)[dealId := old(db.deals)[dealId].(status := AwaitingCreative, updatedAt := now)]
  {
    var deal := db.deals[dealId];
    var version := NextVersion(db, dealId);
    var id := db.NextId();
    c := Creative(id, dealId, version, body.content, Some(body.mediaUrls.OrElse([])),
                  Draft, None, None, now);
    if UniqueVersions(db.creatives) {
      InsertKeepsVersionsUnique(db.creatives, c);
    }
    db.InsertCreative(c);
    db.UpdateDeal(deal.(status := AwaitingCreative, updatedAt := now));
  }

  /** The version of a deal's next creative: one more than its highest, or 1 for the first. */
  method NextVersion(db: Database, dealId: int) returns (version: int)
    ensures forall k :: k in db.creatives && db.creatives[k].dealId == dealId ==> db.creatives[k].version < version
    ensures (forall k :: k in db.creatives ==> db.creatives[k].dealId != dealId) ==> version == 1
    ensures (exists k :: k in db.creatives && db.creatives[k].dealId == dealId) ==>
              exists k :: k in db.creatives && db.creatives[k].dealId == dealId && version == db.creatives[k].version + 1
  {
    var latest := db.LatestCreative(dealId, false);
    version := if latest.Some? then db.creatives[latest.value].version + 1 else 1;
    forall k | k in db.creatives && db.creatives[k].dealId == dealId ensures db.creatives[k].version < version {
      assert db.CreativeOfDeal(k, dealId, false);
    }
    if latest.None? {
      forall k | k in db.creatives ensures db.creatives[k].dealId != dealId {
        assert !db.CreativeOfDeal(k, dealId, false);
      }
    } else {
      var top: int := latest.value;
      assert top in db.creatives && db.creatives[top].dealId == dealId && version == db.creatives[top].version + 1;
    }
  }

  // ---------------------------------------------------------------- updating

  /**
   * The access rule of `handleUpdateCreative`, checked in this order: a channel
   * admin may only touch a `draft`; an advertiser must send a `status`; anyone
   * else is refused. `None` lets the update through; otherwise the 403 message.
   */
  function UpdateRefusal(isAdvertiser: bool, isChannelAdmin: bool, current: CreativeStatus, sendsStatus: bool)
    : (r: Option<string>)
    ensures r.None? <==> (isAdvertiser || isChannelAdmin) && (isChannelAdmin ==> current == Draft)
                         && (isAdvertiser ==> sendsStatus)
    ensures isChannelAdmin && current != Draft ==> r == Some("Cannot update submitted creative")
    ensures !isAdvertiser && !isChannelAdmin ==> r == Some(AccessDenied)
  {
    if isChannelAdmin && current != Draft then Some("Cannot update submitted creative")
    else if isAdvertiser && !sendsStatus then Some("Advertisers can only approve or request revisions")
    else if !(isAdvertiser || isChannelAdmin) then Some(AccessDenied)
    else None
  }

  /**
   * A body that names no column of `deal_creatives`: there is nothing to
   * `set`. A `reviewNote` does not count, since the table has no such column
   * and the query builder drops it.
   */
  predicate NoValues(body: UpdateCreativeParam)
  {
    body.content.None? && body.mediaUrls.None? && body.status.None?
  }

  /**
   * The row after the update: each column the body carries replaces the
   * stored one; `submitted` stamps `submittedAt`, `approved` and
   * `revision_requested` stamp `reviewedAt`. A `reviewNote` is not stored.
   */
  function UpdatedCreative(c: Creative, body: UpdateCreativeParam, now: int): (u: Creative)
    ensures u.id == c.id && u.dealId == c.dealId && u.version == c.version && u.createdAt == c.createdAt
    ensures body.content.Some? ==> u.content == body.content.value
    ensures body.mediaUrls.Some? ==> u.mediaUrls == body.mediaUrls
    ensures body.status.Some? ==> u.status == body.status.value
    ensures u.submittedAt != c.submittedAt ==> body.status == Some(Submitted) && u.submittedAt == Some(now)
    ensures u.reviewedAt != c.reviewedAt ==> body.status in {Some(Approved), Some(RevisionRequested)} && u.reviewedAt == Some(now)
  {
    var status := body.status.OrElse(c.status);
    c.(content := body.content.OrElse(c.content),
       mediaUrls := if body.mediaUrls.Some? then body.mediaUrls else c.mediaUrls,
       status := status,
       submittedAt := if body.status == Some(Submitted) then Some(now) else c.submittedAt,
       reviewedAt := if body.status == Some(Approved) || body.status == Some(RevisionRequested) then Some(now) else c.reviewedAt)
  }

  /** Fields the body does not name keep their stored value; an empty body changes nothing. */
  lemma UpdateKeepsAbsentFields(c: Creative, body: UpdateCreativeParam, now: int)
    ensures body.content.None? ==> UpdatedCreative(c, body, now).content == c.content
    ensures body.mediaUrls.None? ==> UpdatedCreative(c, body, now).mediaUrls == c.mediaUrls
    ensures body.status.None? ==> UpdatedCreative(c, body, now).status == c.status
                                  && UpdatedCreative(c, body, now).submittedAt == c.submittedAt
                                  && UpdatedCreative(c, body, now).reviewedAt == c.reviewedAt
    ensures NoValues(body) ==> UpdatedCreative(c, body, now) == c
  {
  }

  /** A `reviewNote` in the body changes neither the stored row nor whether there is anything to set. */
  lemma ReviewNoteDropped(c: Creative, body: UpdateCreativeParam, now: int, note: Option<string>)
    ensures UpdatedCreative(c, body.(reviewNote := note), now) == UpdatedCreative(c, body, now)
    ensures NoValues(body.(reviewNote := note)) == NoValues(body)
  {
  }

  /** Sending the same update twice at the same instant is the same as sending it once. */
  lemma UpdateIdempotent(c: Creative, body: UpdateCreativeParam, now: int)
    ensures UpdatedCreative(UpdatedCreative(c, body, now), body, now) == UpdatedCreative(c, body, now)
  {
  }

  /**
   * `handleUpdateCreative`: after the body validates, 404 for a missing
   * creative or deal, then the access rule of `UpdateRefusal`. A body with no
   * column to set (nothing, or only a `reviewNote`) reaches an update with an
   * empty `set`, which fails (500). Otherwise the creative becomes `UpdatedCreative`;
   * `submitted` moves the deal to `creative_submitted`, `approved` to
   * `awaiting_payment`, and any other status leaves the deal alone.
   */
  method UpdateCreative(db: Database, id: int, json: Option<JsValue>, tid: int, now: int) returns (r: Reply<Creative>)
    requires db.Valid()
    modifies db`creatives, db`deals
    ensures db.Valid()
    ensures old(VersionsUnique(db)) ==> VersionsUnique(db)
    ensures r.Failure? ==> db.creatives == old(db.creatives) && db.deals == old(db.deals)
    ensures ParseUpdateCreative(ParseBody(json)).None? ==> r == Failure(500, InternalServerError)
    ensures ParseUpdateCreative(ParseBody(json)).Some? && id !in old(db.creatives) ==> r == Failure(404, CreativeNotFound)
    ensures ParseUpdateCreative(ParseBody(json)).Some? && id in old(db.creatives) && old(db.creatives)[id].dealId !in old(db.deals) ==>
              r == Failure(404, DealNotFound)
    ensures ParseUpdateCreative(ParseBody(json)).Some? && id in old(db.creatives) && old(db.creatives)[id].dealId in old(db.deals) ==>
              var body := ParseUpdateCreative(ParseBody(json)).value;
              var d := old(db.deals)[old(db.creatives)[id].dealId];
              var refusal := UpdateRefusal(d.advertiserId == tid, old(db.IsAdminOf(d.channelId, tid)),
                                           old(db.creatives)[id].status, body.status.Some?);
              (refusal.Some? ==> r == Failure(403, refusal.value))
              && (refusal.None? && NoValues(body) ==> r == Failure(500, "Failed to update creative"))
              && (refusal.None? && !NoValues(body) ==> r.Success?)
    ensures r.Success? ==>
              var body := ParseUpdateCreative(ParseBody(json)).value;
              var c := old(db.creatives)[id];
              var dealId := c.dealId;
              var d := old(db.deals)[dealId];
              id in old(db.creatives) && dealId in old(db.deals) && !NoValues(body)
              && UpdateRefusal(d.advertiserId == tid, old(db.IsAdminOf(d.channelId, tid)), c.status, body.status.Some?).None?
              && r.data == Formatted(UpdatedCreative(c, body, now))
              && db.creatives == old(db.creatives)[id := UpdatedCreative(c, body, now)]
              && db.deals == (if body.status == Some(Submitted) then old(db.deals)[dealId := d.(status := CreativeSubmitted, updatedAt := now)]
                              else if body.status == Some(Approved) then old(db.deals)[dealId := d.(status := AwaitingPayment, updatedAt := now)]
                              else old(db.deals))
  {
    var body := ParseUpdateCreative(ParseBody(json));
    if body.None? {
      return Failure(500, InternalServerError);
    }
    if id !in db.creatives {
      return Failure(404, CreativeNotFound);
    }
    var creative := db.creatives[id];
    if creative.dealId !in db.deals {
      return Failure(404, DealNotFound);
    }
    var deal := db.deals[creative.dealId];
    var admin := db.FindAdmin(deal.channelId, tid);
    var refusal := UpdateRefusal(deal.advertiserId == tid, admin.Some?, creative.status, body.value.status.Some?);
    if refusal.Some? {
      return Failure(403, refusal.value);
    }
    if NoValues(body.value) {
      return Failure(500, "Failed to update creative");
    }
    var updated := WriteUpdate(db, id, body.value, now);
    r := Success(Formatted(updated));
  }

  /**
   * The writes of `handleUpdateCreative`: a submitted creative moves its deal
   * to `creative_submitted`, the creative row is updated, and an approved one
   * moves the deal to `awaiting_payment`. Version numbers are not touched.
   */
  method WriteUpdate(db: Database, id: int, body: UpdateCreativeParam, now: int) returns (updated: Creative)
    requires db.Valid() && id in db.creatives && db.creatives[id].dealId in db.deals
    modifies db`creatives, db`deals
    ensures db.Valid()
    ensures old(VersionsUnique(db)) ==> VersionsUnique(db)
    ensures updated == UpdatedCreative(old(db.creatives)[id], body, now)
    ensures db.creatives == old(db.creatives)[id := updated]
    ensures var dealId := old(db.creatives)[id].dealId;
            var d := old(db.deals)[dealId];
            db.deals == (if body.status == Some(Submitted) then old(db.deals)[dealId := d.(status := CreativeSubmitted, updatedAt := now)]
                         else if body.status == Some(Approved) then old(db.deals)[dealId := d.(status := AwaitingPayment, updatedAt := now)]
                         else old(db.deals))
  {
    var creative := db.creatives[id];
    var deal := db.deals[creative.dealId];
    if body.status == Some(Submitted) {
      db.UpdateDeal(deal.(status := CreativeSubmitted, updatedAt := now));
    }
    updated := UpdatedCreative(creative, body, now);
    db.UpdateCreative(updated);
    if body.status == Some(Approved) {
      db.UpdateDeal(deal.(status := AwaitingPayment, updatedAt := now));
    }
  }

  /**
   * The access rule lets a channel admin who is not the advertiser set any
   * status on a draft, `approved` included: the review the advertiser is
   * meant to do can be skipped by the other side.
   */
  lemma ChannelAdminMayApproveDraft()
    ensures UpdateRefusal(false, true, Draft, true).None?
    ensures UpdateRefusal(false, true, Submitted, true).Some?
    ensures UpdateRefusal(true, false, Submitted, false) == Some("Advertisers can only approve or request revisions")
  {
  }
}
