/**
 * The ad-request routes (apps/backend/src/routes/api/ads/handlers.ts): the
 * browse listing with its in-memory filters, applying to a request with a
 * channel, accepting or rejecting an application, and the advertiser's
 * update and delete. `tid` is the Telegram id of the authenticated user;
 * path parameters arrive parsed.
 */
module AdHandlers {
  import opened Wrappers
  import opened JsValues
  import opened JsText
  import opened Schema
  import opened Db
  import opened Helpers
  import opened Ordering
  import opened ValidatorBasics
  import opened AdsValidators

  const AdRequestNotFound: string := "Ad request not found"

  // ---------------------------------------------------------------- filtering

  /** Rows of `order by created_at desc`, each row once. */
  predicate NewestFirst(s: seq<AdRequest>)
  {
    forall i, j :: 0 <= i < j < |s| ==> s[i].id != s[j].id && s[j].createdAt <= s[i].createdAt
  }

  /** Every row after the first of a newest-first listing is a different row, no newer than the first. */
  lemma HeadBounds(s: seq<AdRequest>)
    requires s != [] && NewestFirst(s)
    ensures forall y :: y in s[1..] ==> y.id != s[0].id && y.createdAt <= s[0].createdAt
  {
    forall y | y in s[1..] ensures y.id != s[0].id && y.createdAt <= s[0].createdAt {
      var m :| 0 <= m < |s[1..]| && s[1..][m] == y;
      assert s[m + 1] == y;
    }
  }

  /** A row newer than, and different from, every row of a newest-first listing can head it. */
  lemma ConsNewestFirst(x: AdRequest, rest: seq<AdRequest>)
    requires NewestFirst(rest)
    requires forall y :: y in rest ==> y.id != x.id && y.createdAt <= x.createdAt
    ensures NewestFirst([x] + rest)
  {
    var r := [x] + rest;
    forall i, j | 0 <= i < j < |r| ensures r[i].id != r[j].id && r[j].createdAt <= r[i].createdAt {
      assert r[j] == rest[j - 1];
      if i == 0 {
        assert r[j] in rest;
      } else {
        assert r[i] == rest[i - 1];
      }
    }
  }

  /** Filtering only removes elements, so the order survives. */
  lemma {:induction false} FilterNewestFirst(s: seq<AdRequest>, keep: AdRequest -> bool)
    requires NewestFirst(s)
    ensures NewestFirst(Filter(s, keep))
  {
    if s != [] {
      var rest := Filter(s[1..], keep);
      assert NewestFirst(s[1..]) by {
        forall i, j | 0 <= i < j < |s[1..]| ensures s[1..][i].id != s[1..][j].id && s[1..][j].createdAt <= s[1..][i].createdAt {
          assert s[1..][i] == s[i + 1] && s[1..][j] == s[j + 1];
        }
      }
      FilterNewestFirst(s[1..], keep);
      if keep(s[0]) {
        HeadBounds(s);
        ConsNewestFirst(s[0], rest);
        assert Filter(s, keep) == [s[0]] + rest;
      }
    }
  }

  /** A query-string parameter the handler treats as set: present and non-empty. */
  function Param(query: map<string, string>, k: string): (r: Option<string>)
    ensures r.Some? <==> k in query && query[k] != ""
    ensures r.Some? ==> r.value == query[k]
  {
    if k in query && query[k] != "" then Some(query[k]) else None
  }

  /** `r.budget >= Number.parseInt(minBudget, 10)`; a `NaN` bound lets nothing through. */
  predicate MinBudgetOk(r: AdRequest, query: map<string, string>)
  {
    Param(query, "minBudget").None?
    || (ParseIntPrefix(query["minBudget"]).Some? && r.budget >= ParseIntPrefix(query["minBudget"]).value)
  }

  predicate MaxBudgetOk(r: AdRequest, query: map<string, string>)
  {
    Param(query, "maxBudget").None?
    || (ParseIntPrefix(query["maxBudget"]).Some? && r.budget <= ParseIntPrefix(query["maxBudget"]).value)
  }

  predicate LanguageOk(r: AdRequest, query: map<string, string>)
  {
    Param(query, "language").None? || r.language == Some(query["language"])
  }

  predicate FormatOk(r: AdRequest, query: map<string, string>)
  {
    Param(query, "adFormat").None? || r.adFormat.Name() == query["adFormat"]
  }

  /** The `status` parameter is compared as text; a value outside the enumeration matches nothing. */
  predicate StatusOk(r: AdRequest, query: map<string, string>)
  {
    Param(query, "status").None? || r.status.Name() == query["status"]
  }

  /** Every filter the query sets, together. */
  predicate Passes(r: AdRequest, query: map<string, string>)
  {
    MinBudgetOk(r, query) && MaxBudgetOk(r, query) && LanguageOk(r, query) && FormatOk(r, query) && StatusOk(r, query)
  }

  /** One filter of the handler, applied only when `on`. */
  function FilterWhen(s: seq<AdRequest>, on: bool, keep: AdRequest -> bool): (r: seq<AdRequest>)
    ensures forall x :: x in r <==> x in s && (on ==> keep(x))
    ensures |r| <= |s|
  {
    if on then Filter(s, keep) else s
  }

  /**
   * The five filters of `handleGetAdRequests`, each applied only when its
   * parameter is set, in the handler's order. Together they keep exactly
   * the requests that pass all of them.
   */
  function Filtered(s: seq<AdRequest>, query: map<string, string>): (r: seq<AdRequest>)
    ensures forall x :: x in r <==> x in s && Passes(x, query)
    ensures |r| <= |s|
  {
    var s1 := FilterWhen(s, Param(query, "minBudget").Some?, x => MinBudgetOk(x, query));
    var s2 := FilterWhen(s1, Param(query, "maxBudget").Some?, x => MaxBudgetOk(x, query));
    var s3 := FilterWhen(s2, Param(query, "language").Some?, x => LanguageOk(x, query));
    var s4 := FilterWhen(s3, Param(query, "adFormat").Some?, x => FormatOk(x, query));
    FilterWhen(s4, Param(query, "status").Some?, x => StatusOk(x, query))
  }

  /** Filtering only when a parameter is set keeps the order too. */
  lemma FilterWhenNewestFirst(s: seq<AdRequest>, on: bool, keep: AdRequest -> bool)
    requires NewestFirst(s)
    ensures NewestFirst(FilterWhen(s, on, keep))
  {
    if on {
      FilterNewestFirst(s, keep);
    }
  }

  /** The filters keep the newest-first order of the query. */
  lemma FilteredNewestFirst(s: seq<AdRequest>, query: map<string, string>)
    requires NewestFirst(s)
    ensures NewestFirst(Filtered(s, query))
  {
    var s1 := FilterWhen(s, Param(query, "minBudget").Some?, x => MinBudgetOk(x, query));
    var s2 := FilterWhen(s1, Param(query, "maxBudget").Some?, x => MaxBudgetOk(x, query));
    var s3 := FilterWhen(s2, Param(query, "language").Some?, x => LanguageOk(x, query));
    var s4 := FilterWhen(s3, Param(query, "adFormat").Some?, x => FormatOk(x, query));
    FilterWhenNewestFirst(s, Param(query, "minBudget").Some?, x => MinBudgetOk(x, query));
    FilterWhenNewestFirst(s1, Param(query, "maxBudget").Some?, x => MaxBudgetOk(x, query));
    FilterWhenNewestFirst(s2, Param(query, "language").Some?, x => LanguageOk(x, query));
    FilterWhenNewestFirst(s3, Param(query, "adFormat").Some?, x => FormatOk(x, query));
    FilterWhenNewestFirst(s4, Param(query, "status").Some?, x => StatusOk(x, query));
  }

  // ---------------------------------------------------------------- listing

  /** One entry of the listing: the request's columns and the two flags. */
  datatype ListedAdRequest = ListedAdRequest(request: AdRequest, isOwn: bool, hasApplied: bool)

  /** The listing and its `filters` metadata. */
  datatype AdListing = AdListing(requests: seq<ListedAdRequest>, hasChannels: bool, total: int)

  /** What the database query returns before the filters: the user's own requests, or every open one. */
  predicate Visible(r: AdRequest, hasChannels: bool, tid: int)
  {
    if hasChannels then r.status == Open else r.advertiserId == tid
  }

  /**
   * `handleGetAdRequests`: a user who administers no channel sees their own
   * requests, flagged as own and not applied; any other user sees the open
   * requests, flagged as own when they are the advertiser and as applied when
   * one of their channels applied. In both cases the query-string filters
   * then drop what fails them, newest first throughout, and `total` counts
   * what is returned.
   */
  method ListAdRequests(db: Database, tid: int, query: map<string, string>) returns (listing: AdListing)
    requires db.Valid()
    ensures listing.hasChannels == db.HasChannels(tid)
    ensures listing.total == |listing.requests|
    ensures forall i :: 0 <= i < |listing.requests| ==>
              var e := listing.requests[i];
              e.request.id in db.adRequests && db.adRequests[e.request.id] == e.request
              && Visible(e.request, listing.hasChannels, tid) && Passes(e.request, query)
              && e.isOwn == (!listing.hasChannels || e.request.advertiserId == tid)
              && e.hasApplied == (listing.hasChannels && db.HasApplied(e.request.id, tid))
    ensures forall k :: k in db.adRequests && Visible(db.adRequests[k], listing.hasChannels, tid)
                        && Passes(db.adRequests[k], query) ==>
              exists i :: 0 <= i < |listing.requests| && listing.requests[i].request == db.adRequests[k]
    ensures forall i, j :: 0 <= i < j < |listing.requests| ==> listing.requests[i].request.id != listing.requests[j].request.id
    ensures forall i, j :: 0 <= i < j < |listing.requests| ==>
              listing.requests[j].request.createdAt <= listing.requests[i].request.createdAt
  {
    var hasChannels := db.AdministersAny(tid);
    var rows := VisibleRows(db, hasChannels, tid);
    var filtered := Filtered(rows, query);
    FilteredNewestFirst(rows, query);
    var out := Annotate(db, filtered, hasChannels, tid);
    forall k | k in db.adRequests && Visible(db.adRequests[k], hasChannels, tid) && Passes(db.adRequests[k], query)
      ensures exists j :: 0 <= j < |out| && out[j].request == db.adRequests[k]
    {
      assert db.adRequests[k] in filtered;
      var j :| 0 <= j < |filtered| && filtered[j] == db.adRequests[k];
      assert out[j].request == db.adRequests[k];
    }
    forall j | 0 <= j < |out| ensures out[j].request in rows
    {
      assert filtered[j] in filtered;
    }
    listing := AdListing(out, hasChannels, |out|);
  }

  /** The flags of each listed request, in the order of the rows. */
  method Annotate(db: Database, rows: seq<AdRequest>, hasChannels: bool, tid: int) returns (out: seq<ListedAdRequest>)
    requires db.Valid()
    ensures |out| == |rows|
    ensures forall j :: 0 <= j < |rows| ==>
              out[j] == ListedAdRequest(rows[j], !hasChannels || rows[j].advertiserId == tid,
                                        hasChannels && db.HasApplied(rows[j].id, tid))
  {
    out := [];
    var i := 0;
    while i < |rows|
      invariant 0 <= i <= |rows| && |out| == i
      invariant forall j :: 0 <= j < i ==>
                  out[j] == ListedAdRequest(rows[j], !hasChannels || rows[j].advertiserId == tid,
                                            hasChannels && db.HasApplied(rows[j].id, tid))
    {
      var applied := false;
      if hasChannels {
        applied := db.AppliedWithOwnChannel(rows[i].id, tid);
      }
      out := out + [ListedAdRequest(rows[i], !hasChannels || rows[i].advertiserId == tid, applied)];
      i := i + 1;
    }
  }

  /**
   * The database query of the listing: the rows `Visible` selects, newest
   * first (`where ... order by created_at desc`).
   */
  method VisibleRows(db: Database, hasChannels: bool, tid: int) returns (rows: seq<AdRequest>)
    requires db.Valid()
    ensures NewestFirst(rows)
    ensures forall x :: x in rows ==> x.id in db.adRequests && db.adRequests[x.id] == x && Visible(x, hasChannels, tid)
    ensures forall k :: k in db.adRequests && Visible(db.adRequests[k], hasChannels, tid) ==> db.adRequests[k] in rows
  {
    var ars := db.adRequests;
    var keys := set k | k in ars && Visible(ars[k], hasChannels, tid);
    var ks := ListDesc(keys, (k: int) => if k in ars then ars[k].createdAt else 0);
    SetListing(ks, keys);
    rows := seq(|ks|, i requires 0 <= i < |ks| && ks[i] in ars => ars[ks[i]]);
    assert db.KeysValid() && db.AdRequestsKeyed();
    assert forall i :: 0 <= i < |rows| ==> rows[i].id == ks[i];
    forall i, j | 0 <= i < j < |rows| ensures rows[i].id != rows[j].id && rows[j].createdAt <= rows[i].createdAt {
      assert ks[i] in keys && ks[j] in keys;
    }
    forall x | x in rows ensures x.id in db.adRequests && db.adRequests[x.id] == x && Visible(x, hasChannels, tid) {
      var i :| 0 <= i < |rows| && rows[i] == x;
      assert ks[i] in keys;
    }
    forall k | k in db.adRequests && Visible(db.adRequests[k], hasChannels, tid) ensures db.adRequests[k] in rows {
      assert k in keys;
      var a :| 0 <= a < |ks| && ks[a] == k;
      assert rows[a] == db.adRequests[k];
    }
  }

  // ---------------------------------------------------------------- applying

  /** A channel applies to an ad request at most once. */
  ghost predicate OneApplicationPerChannel(db: Database)
    reads db
  {
    forall a, b ::
      (a in db.applications && b in db.applications
       && db.applications[a].adRequestId == db.applications[b].adRequestId
       && db.applications[a].channelId == db.applications[b].channelId) ==> a == b
  }

  /**
   * `handleApplyToAdRequest`: after the body validates, 404 for a missing
   * request, 400 unless it is `open`, 403 unless the user administers the
   * channel, 400 when the channel already applied; otherwise exactly one
   * `pending` application is stored.
   */
  method ApplyToAdRequest(db: Database, id: int, json: Option<JsValue>, tid: int, now: int) returns (r: Reply<Application>)
    requires db.Valid()
    modifies db`applications, db`nextId
    ensures db.Valid()
    ensures old(OneApplicationPerChannel(db)) ==> OneApplicationPerChannel(db)
    ensures r.Failure? ==> db.applications == old(db.applications) && db.nextId == old(db.nextId)
    ensures ParseApplyToAdRequest(ParseBody(json)).None? ==> r == Failure(500, InternalServerError)
    ensures ParseApplyToAdRequest(ParseBody(json)).Some? ==>
              var channelId := ParseApplyToAdRequest(ParseBody(json)).value;
              (id !in old(db.adRequests) ==> r == Failure(404, AdRequestNotFound))
              && (id in old(db.adRequests) && old(db.adRequests)[id].status != Open ==>
                    r == Failure(400, "This ad request is no longer accepting applications"))
              && (id in old(db.adRequests) && old(db.adRequests)[id].status == Open && !old(db.IsAdminOf(channelId, tid)) ==>
                    r == Failure(403, "You must be an admin of the channel to apply with it"))
              && (id in old(db.adRequests) && old(db.adRequests)[id].status == Open && old(db.IsAdminOf(channelId, tid))
                  && (exists k :: k in old(db.applications) && old(db.applications)[k].adRequestId == id
                                  && old(db.applications)[k].channelId == channelId) ==>
                    r == Failure(400, "You have already applied to this request"))
    ensures r.Success? ==>
              var channelId := ParseApplyToAdRequest(ParseBody(json)).value;
              id in old(db.adRequests) && old(db.adRequests)[id].status == Open && old(db.IsAdminOf(channelId, tid))
              && (forall k :: k in old(db.applications) ==>
                    old(db.applications)[k].adRequestId != id || old(db.applications)[k].channelId != channelId)
              && r.data.id !in old(db.applications)
              && r.data == NewApplication(r.data.id, id, channelId, now)
              && db.applications == old(db.applications)[r.data.id := r.data]
    ensures (ParseApplyToAdRequest(ParseBody(json)).Some? && id in old(db.adRequests) && old(db.adRequests)[id].status == Open
             && old(db.IsAdminOf(ParseApplyToAdRequest(ParseBody(json)).value, tid))
             && (forall k :: k in old(db.applications) ==>
                   old(db.applications)[k].adRequestId != id
                   || old(db.applications)[k].channelId != ParseApplyToAdRequest(ParseBody(json)).value)) ==> r.Success?
  {
    var body := ParseApplyToAdRequest(ParseBody(json));
    if body.None? {
      return Failure(500, InternalServerError);
    }
    var channelId := body.value;
    if id !in db.adRequests {
      return Failure(404, AdRequestNotFound);
    }
    if db.adRequests[id].status != Open {
      return Failure(400, "This ad request is no longer accepting applications");
    }
    var admin := db.FindAdmin(channelId, tid);
    if admin.None? {
      return Failure(403, "You must be an admin of the channel to apply with it");
    }
    var existing := db.FindApplication(id, channelId);
    if existing.Some? {
      var k: int := existing.value;
      assert k in db.applications && db.applications[k].adRequestId == id && db.applications[k].channelId == channelId;
      return Failure(400, "You have already applied to this request");
    }
    var application := StoreApplication(db, id, channelId, now);
    r := Success(application);
  }

  /** The write of `handleApplyToAdRequest`: a `pending` application under a fresh id. */
  method StoreApplication(db: Database, adRequestId: int, channelId: int, now: int) returns (application: Application)
    requires db.Valid()
    requires forall k :: k in db.applications ==>
               db.applications[k].adRequestId != adRequestId || db.applications[k].channelId != channelId
    modifies db`applications, db`nextId
    ensures db.Valid()
    ensures old(OneApplicationPerChannel(db)) ==> OneApplicationPerChannel(db)
    ensures application.id !in old(db.applications)
    ensures application == NewApplication(application.id, adRequestId, channelId, now)
    ensures db.applications == old(db.applications)[application.id := application]
  {
    var appId := db.NextId();
    application := NewApplication(appId, adRequestId, channelId, now);
    db.InsertApplication(application);
  }

  // ---------------------------------------------------------------- reviewing applications

  /**
   * `handleUpdateApplicationStatus`. The raw body's `status` is used as is: a
   * `null` body cannot be destructured (500 from the framework); then 404 for
   * a missing request and 403 unless the user is its advertiser. A status
   * that is not one of the enumeration's names makes the update fail (500)
   * before the application is looked for; an application not of this request
   * is 404. Only `accepted` touches the ad request, which becomes
   * `in_progress`; no deal is created.
   */
  method UpdateApplicationStatus(db: Database, id: int, applicationId: int, json: Option<JsValue>, tid: int, now: int)
    returns (r: Reply<Application>)
    requires db.Valid()
    modifies db`applications, db`adRequests
    ensures db.Valid()
    ensures old(OneApplicationPerChannel(db)) ==> OneApplicationPerChannel(db)
    ensures r.Failure? ==> db.applications == old(db.applications) && db.adRequests == old(db.adRequests)
    ensures ParseBody(json).Null? ==> r == Failure(500, InternalServerError)
    ensures !ParseBody(json).Null? ==>
              var status := F(ParseBody(json), "status");
              var parsed := if status.Str? then ParseApplicationStatus(status.s) else None;
              (id !in old(db.adRequests) ==> r == Failure(404, AdRequestNotFound))
              && (id in old(db.adRequests) && old(db.adRequests)[id].advertiserId != tid ==>
                    r == Failure(403, "Only the advertiser can update applications"))
              && (id in old(db.adRequests) && old(db.adRequests)[id].advertiserId == tid && parsed.None? ==>
                    r == Failure(500, "Failed to update application status"))
              && (id in old(db.adRequests) && old(db.adRequests)[id].advertiserId == tid && parsed.Some?
                  && !(applicationId in old(db.applications) && old(db.applications)[applicationId].adRequestId == id) ==>
                    r == Failure(404, "Application not found"))
              && (r.Success? ==>
                    parsed.Some? && id in old(db.adRequests) && old(db.adRequests)[id].advertiserId == tid
                    && applicationId in old(db.applications) && old(db.applications)[applicationId].adRequestId == id
                    && r.data == old(db.applications)[applicationId].(status := parsed.value)
                    && db.applications == old(db.applications)[applicationId := r.data]
                    && db.adRequests == (if parsed.value == Accepted
                                         then old(db.adRequests)[id := old(db.adRequests)[id].(status := InProgress, updatedAt := now)]
                                         else old(db.adRequests)))
              && ((id in old(db.adRequests) && old(db.adRequests)[id].advertiserId == tid && parsed.Some?
                   && applicationId in old(db.applications) && old(db.applications)[applicationId].adRequestId == id) ==> r.Success?)
  {
    var body := ParseBody(json);
    if body.Null? {
      return Failure(500, InternalServerError);
    }
    var status := F(body, "status");
    if id !in db.adRequests {
      return Failure(404, AdRequestNotFound);
    }
    var request := db.adRequests[id];
    if request.advertiserId != tid {
      return Failure(403, "Only the advertiser can update applications");
    }
    var parsed := if status.Str? then ParseApplicationStatus(status.s) else None;
    if parsed.None? {
      return Failure(500, "Failed to update application status");
    }
    if !(applicationId in db.applications && db.applications[applicationId].adRequestId == id) {
      return Failure(404, "Application not found");
    }
    var updated := db.applications[applicationId].(status := parsed.value);
    assert db.KeysValid() && db.ApplicationsKeyed();
    db.UpdateApplication(updated);
    if parsed.value == Accepted {
      db.UpdateAdRequest(request.(status := InProgress, updatedAt := now));
    }
    r := Success(updated);
  }

  // ---------------------------------------------------------------- advertiser's update and delete

  /**
   * The row after `handleUpdateAdRequest`'s `set`: each field the body
   * carries replaces the stored one (the deadline already converted), and
   * `updatedAt` is stamped.
   */
  function UpdatedAdRequest(a: AdRequest, body: UpdateAdRequestParam, deadline: Option<int>, now: int): (u: AdRequest)
    ensures u.id == a.id && u.advertiserId == a.advertiserId && u.createdAt == a.createdAt && u.updatedAt == now
    ensures body.title.Some? ==> u.title == body.title.value
    ensures body.title.None? ==> u.title == a.title
    ensures body.budget.Some? ==> u.budget == body.budget.value
    ensures body.budget.None? ==> u.budget == a.budget
    ensures body.status.Some? ==> u.status == body.status.value
    ensures body.status.None? ==> u.status == a.status
    ensures deadline.None? ==> u.deadline == a.deadline
    ensures deadline.Some? ==> u.deadline == deadline.value
    ensures body.description.Some? ==> u.description == body.description
    ensures body.description.None? ==> u.description == a.description
    ensures body.minSubscribers.Some? ==> u.minSubscribers == body.minSubscribers
    ensures body.minSubscribers.None? ==> u.minSubscribers == a.minSubscribers
    ensures body.language.Some? ==> u.language == body.language
    ensures body.language.None? ==> u.language == a.language
    ensures body.adFormat.Some? ==> u.adFormat == body.adFormat.value
    ensures body.adFormat.None? ==> u.adFormat == a.adFormat
    ensures body.contentGuidelines.Some? ==> u.contentGuidelines == body.contentGuidelines
    ensures body.contentGuidelines.None? ==> u.contentGuidelines == a.contentGuidelines
  {
    AdRequest(a.id, Patch(body.title, a.title), PatchOpt(body.description, a.description),
              Patch(body.budget, a.budget), PatchOpt(body.minSubscribers, a.minSubscribers),
              PatchOpt(body.language, a.language), Patch(deadline, a.deadline),
              Patch(body.adFormat, a.adFormat), PatchOpt(body.contentGuidelines, a.contentGuidelines),
              a.advertiserId, Patch(body.status, a.status), a.createdAt, now)
  }

  /** A field the body carries replaces the stored one; an absent one keeps it. */
  function Patch<T>(given: Option<T>, stored: T): (r: T)
    ensures given.Some? ==> r == given.value
    ensures given.None? ==> r == stored
  {
    if given.Some? then given.value else stored
  }

  /** The same for a nullable column: a present field replaces the whole stored value. */
  function PatchOpt<T>(given: Option<T>, stored: Option<T>): (r: Option<T>)
    ensures given.Some? ==> r == given
    ensures given.None? ==> r == stored
  {
    if given.Some? then given else stored
  }

  /** An empty body with no deadline only stamps the update time. */
  lemma EmptyUpdateStampsOnly(a: AdRequest, now: int)
    ensures UpdatedAdRequest(a, EmptyUpdate, None, now) == a.(updatedAt := now)
  {
  }

  /**
   * `handleUpdateAdRequest`: after the body validates, 404 for a missing
   * request and 403 unless the user is its advertiser. A `deadline` in the
   * body must be text `new Date` accepts (`parseDate`); the empty string or
   * unparsable text makes the update fail (500). Otherwise the row becomes
   * `UpdatedAdRequest`.
   */
  method UpdateAdRequest(db: Database, id: int, json: Option<JsValue>, tid: int, now: int, parseDate: string -> Option<int>)
    returns (r: Reply<AdRequest>)
    requires db.Valid()
    modifies db`adRequests
    ensures db.Valid()
    ensures r.Failure? ==> db.adRequests == old(db.adRequests)
    ensures ParseUpdateAdRequest(ParseBody(json)).None? ==> r == Failure(500, InternalServerError)
    ensures ParseUpdateAdRequest(ParseBody(json)).Some? && id !in old(db.adRequests) ==> r == Failure(404, AdRequestNotFound)
    ensures ParseUpdateAdRequest(ParseBody(json)).Some? && id in old(db.adRequests) && old(db.adRequests)[id].advertiserId != tid ==>
              r == Failure(403, "You can only update your own ad requests")
    ensures ParseUpdateAdRequest(ParseBody(json)).Some? && id in old(db.adRequests) && old(db.adRequests)[id].advertiserId == tid ==>
              var body := ParseUpdateAdRequest(ParseBody(json)).value;
              var badDeadline := body.deadline.Some? && (body.deadline.value == "" || parseDate(body.deadline.value).None?);
              (badDeadline ==> r == Failure(500, "Failed to update ad request"))
              && (!badDeadline ==>
                    var deadline := if body.deadline.Some? then parseDate(body.deadline.value) else None;
                    r == Success(UpdatedAdRequest(old(db.adRequests)[id], body, deadline, now))
                    && db.adRequests == old(db.adRequests)[id := r.data])
  {
    var body := ParseUpdateAdRequest(ParseBody(json));
    if body.None? {
      return Failure(500, InternalServerError);
    }
    if id !in db.adRequests {
      return Failure(404, AdRequestNotFound);
    }
    var existing := db.adRequests[id];
    if existing.advertiserId != tid {
      return Failure(403, "You can only update your own ad requests");
    }
    var deadline: Option<int> := None;
    if body.value.deadline.Some? {
      var text := body.value.deadline.value;
      if text == "" || parseDate(text).None? {
        return Failure(500, "Failed to update ad request");
      }
      deadline := parseDate(text);
    }
    var updated := UpdatedAdRequest(existing, body.value, deadline, now);
    assert db.KeysValid() && db.AdRequestsKeyed();
    db.UpdateAdRequest(updated);
    r := Success(updated);
  }

  /**
   * `handleDeleteAdRequest`: 404 for a missing request, 403 unless the user
   * is its advertiser. The delete takes the request's applications with it;
   * when a deal was made from one of them the database refuses (500) and
   * nothing is deleted.
   */
  method DeleteAdRequest(db: Database, id: int, tid: int) returns (r: Reply<string>)
    requires db.Valid()
    modifies db`adRequests, db`applications
    ensures db.Valid()
    ensures r.Failure? ==> db.adRequests == old(db.adRequests) && db.applications == old(db.applications)
    ensures id !in old(db.adRequests) ==> r == Failure(404, AdRequestNotFound)
    ensures id in old(db.adRequests) && old(db.adRequests)[id].advertiserId != tid ==>
              r == Failure(403, "You can only delete your own ad requests")
    ensures id in old(db.adRequests) && old(db.adRequests)[id].advertiserId == tid ==>
              var blocked := exists d :: d in old(db.deals) && old(db.deals)[d].applicationId in old(db.applications)
                                         && old(db.applications)[old(db.deals)[d].applicationId].adRequestId == id;
              (blocked ==> r == Failure(500, "Failed to delete ad request"))
              && (!blocked ==>
                    r == Success("Ad request deleted successfully")
                    && db.adRequests == old(db.adRequests) - {id}
                    && (forall k :: k in db.applications <==> k in old(db.applications) && old(db.applications)[k].adRequestId != id)
                    && (forall k :: k in db.applications ==> db.applications[k] == old(db.applications)[k]))
  {
    if id !in db.adRequests {
      return Failure(404, AdRequestNotFound);
    }
    if db.adRequests[id].advertiserId != tid {
      return Failure(403, "You can only delete your own ad requests");
    }
    var blocked := db.DealOfAdRequest(id);
    if blocked {
      return Failure(500, "Failed to delete ad request");
    }
    db.DeleteAdRequest(id);
    r := Success("Ad request deleted successfully");
  }
}
