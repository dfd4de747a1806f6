/**
 * The channel routes (apps/backend/src/routes/api/channels/handlers.ts):
 * offering a stats agent for a new channel, verifying and registering a
 * channel, listing the user's channels (all of them, or those that can serve
 * an ad request), the channel detail page, the admin list, inviting and
 * demoting admins, the listing settings and the public catalogue. `tid` is
 * the Telegram id of the authenticated user; the Telegram id in the path
 * arrives parsed.
 */
module ChannelHandlers {
  import opened Wrappers
  import opened JsValues
  import opened Schema
  import opened Db
  import opened Helpers
  import opened Ordering
  import opened ChannelHelpers
  import opened ChannelsValidators
  import opened ValidatorBasics
  import opened Transform
  import opened JsText

  const NoAgentAvailable: string := "Add channel not possible, try again later!"
  const FieldsIncomplete: string := "Fields are incomplete!"
  const VerifyFailed: string := "Failed to verify channel, make sure the account is admin of the channel!"
  const ChannelVerified: string := "Channel verified and added successfully"
  const RequestIdMandatory: string := "request id is mandatory!"
  const ChannelNotFound: string := "Channel not found"
  const AccessDenied: string := "Access denied"
  const AdminAlreadyExists: string := "Admin already exists"
  const OnlyOwnersDemote: string := "Only owners can demote admins"
  const AdminNotFound: string := "Admin not found"
  const CannotDemoteOwner: string := "Cannot demote channel owner"
  const CannotDemoteSelf: string := "Cannot demote yourself"
  const AdminDemoted: string := "Admin demoted successfully"
  const NoAccess: string := "No access to this channel!"
  const ListingUpdated: string := "Updated Successfully!"
  const ListingFailed: string := "Failed to update listing info"

  /** The result of a body schema's `safeParse`: the parsed data, or zod's error message. */
  datatype BodyParse<T> = BodyOk(value: T) | BodyRefused(message: string)

  /** The stored channel with the Telegram id of the path, if any. */
  ghost predicate ChannelOfTgId(db: Database, c: int, tgId: int)
    reads db`channels
  {
    c in db.channels && db.channels[c].tgId == tgId
  }

  // ---------------------------------------------------------------- adding a channel

  /** The stats agent offered for a channel: the active session's Telegram account. */
  datatype Agent = Agent(id: string, accountId: string, accountName: string, username: Option<string>)
  datatype AgentOffer = AgentOffer(channelId: int, agent: Agent)

  /** A nullable text column inside a template literal: `null` is written out. */
  function Interpolated(s: Option<string>): string
  {
    if s.Some? then s.value else "null"
  }

  /**
   * `hangleAgentForChannel`: the body must hold a bigint `channelId` (its
   * `.parse` runs outside the `try`, so a refusal is the framework's 500);
   * then some active session is offered as the agent, or 500 when none is.
   */
  method AgentForChannel(db: Database, json: Option<JsValue>) returns (r: Reply<AgentOffer>)
    ensures ParseSubmitChannel(ParseBody(json)).None? ==> r == Failure(500, InternalServerError)
    ensures ParseSubmitChannel(ParseBody(json)).Some? && !db.HasActiveSession() ==> r == Failure(500, NoAgentAvailable)
    ensures ParseSubmitChannel(ParseBody(json)).Some? && db.HasActiveSession() ==> r.Success?
    ensures r.Success? ==>
              r.data.channelId == ParseSubmitChannel(ParseBody(json)).value
              && r.data.agent.id in db.sessions
              && var s := db.sessions[r.data.agent.id];
              s.status == Active && r.data.agent.accountId == s.tgUserId && r.data.agent.username == s.tgUsername
              && r.data.agent.accountName == s.tgFirstName + " " + Interpolated(s.tgLastName)
  {
    var channelId := ParseSubmitChannel(ParseBody(json));
    if channelId.None? {
      return Failure(500, InternalServerError);
    }
    var session := db.FindActiveSession();
    if session.None? {
      return Failure(500, NoAgentAvailable);
    }
    var s := db.sessions[session.value];
    r := Success(AgentOffer(channelId.value,
                            Agent(session.value, s.tgUserId, s.tgFirstName + " " + Interpolated(s.tgLastName), s.tgUsername)));
  }

  /**
   * A body decoded from JSON holds no bigint, so `hangleAgentForChannel`
   * refuses every request a client can send.
   */
  lemma JsonBodyNeverOffersAgent(json: Option<JsValue>)
    requires json.Some? ==> NoBigInt(json.value)
    ensures ParseSubmitChannel(ParseBody(json)).None?
  {
    var v := ParseBody(json);
    if v.Obj? {
      var x := Get(v.fields, "channelId");
      assert x != Undefined ==> exists i :: 0 <= i < |v.fields| && v.fields[i] == ("channelId", x);
      assert forall i :: 0 <= i < |v.fields| ==> NoBigInt(v.fields[i].1);
      assert F(v, "channelId") == x;
    }
  }

  /** The channel columns the routes send back: everything but the access hash. */
  datatype PublicStats = PublicStats(
    id: int, title: Option<string>, tgId: int, tgLink: string,
    subCount: int, avgPostReach: int, languages: seq<LanguageStat>)

  function WithoutHash(s: ChannelStats): PublicStats
  {
    PublicStats(s.id, s.title, s.tgId, s.tgLink, s.subCount, s.avgPostReach, s.languages)
  }

  datatype VerifiedChannel = VerifiedChannel(message: string, channel: PublicStats)

  /**
   * The session names an account that is an admin of the channel, and
   * Telegram reports a statistics data centre for it: what
   * `verifyChannelAdmin` needs to succeed.
   */
  predicate Verifiable(sessions: map<string, TgSession>, accountId: string, channelInput: string,
                       probe: (string, string) -> ChannelProbe)
  {
    accountId in sessions
    && var p := probe(sessions[accountId].storageKey, ChannelUsername(channelInput));
    p.ChannelProbed? && p.isAdmin && p.statsDc.Some? && p.statsDc.value != 0
  }

  /**
   * The `try` of `handleVerifyChannel`: `verifyChannelAdmin` followed by
   * `syncChannelAdmin`. A throw leaves both tables as they were; on success
   * the verified channel is stored and the user holds an admin row for it.
   */
  method RegisterChannel(db: Database, tid: int, accountId: string, channelInput: string,
                         probe: (string, string) -> ChannelProbe, now: int) returns (o: Outcome<ChannelStats>)
    requires db.Valid()
    modifies db`channels, db`channelAdmins, db`nextId
    ensures db.Valid()
    ensures o.Threw? ==> db.channels == old(db.channels) && db.channelAdmins == old(db.channelAdmins)
    ensures o.Returned? <==> Verifiable(db.sessions, accountId, channelInput, probe)
    ensures o.Returned? ==>
              o.value.tgLink == TgLink(ChannelUsername(channelInput))
              && o.value.tgId == probe(db.sessions[accountId].storageKey, ChannelUsername(channelInput)).tgId
              && o.value.id in db.channels && db.channels[o.value.id].tgId == o.value.tgId
              && db.channels[o.value.id].tgLink == o.value.tgLink
              && db.IsAdminOf(o.value.id, tid)
              && old(db.channelAdmins).Keys <= db.channelAdmins.Keys
  {
    o := VerifyChannelAdmin(db, tid, accountId, channelInput, probe, now);
    if o.Threw? {
      return;
    }
    var s := o.value;
    assert s.id in db.channels && db.channels[s.id].tgId == s.tgId && db.channels[s.id].tgLink == s.tgLink;
    // The channel was just upserted, so `syncChannelAdmin` finds it and does not throw.
    var _ := SyncChannelAdmin(db, s.tgId, tid, now);
    assert db.IsAdminOf(s.id, tid);
  }

  /**
   * `handleVerifyChannel`: an incomplete body is an error with status 200;
   * otherwise the channel is verified and upserted and the user recorded as
   * an admin of it. Any throw on the way is a 500 that leaves both tables as
   * they were.
   */
  method VerifyChannel(db: Database, json: Option<JsValue>, tid: int,
                       probe: (string, string) -> ChannelProbe, now: int) returns (r: Reply<VerifiedChannel>)
    requires db.Valid()
    modifies db`channels, db`channelAdmins, db`nextId
    ensures db.Valid()
    ensures r.Failure? ==> db.channels == old(db.channels) && db.channelAdmins == old(db.channelAdmins)
    ensures ParseVerifyChannel(ParseBody(json)).None? ==> r == Failure(200, FieldsIncomplete)
    ensures ParseVerifyChannel(ParseBody(json)).Some? ==>
              var (channelInput, accountId) := ParseVerifyChannel(ParseBody(json)).value;
              (r.Success? <==> Verifiable(db.sessions, accountId, channelInput, probe))
              && (r.Failure? ==> r == Failure(500, VerifyFailed))
              && (r.Success? ==>
                    r.data.message == ChannelVerified
                    && r.data.channel.tgLink == TgLink(ChannelUsername(channelInput))
                    && r.data.channel.tgId == probe(db.sessions[accountId].storageKey, ChannelUsername(channelInput)).tgId)
    ensures r.Success? ==>
              var id := r.data.channel.id;
              id in db.channels && db.channels[id].tgId == r.data.channel.tgId
              && db.channels[id].tgLink == r.data.channel.tgLink
              && db.IsAdminOf(id, tid)
              && old(db.channelAdmins).Keys <= db.channelAdmins.Keys
  {
    var parsed := ParseVerifyChannel(ParseBody(json));
    if parsed.None? {
      return Failure(200, FieldsIncomplete);
    }
    var (channelInput, accountId) := parsed.value;
    var o := RegisterChannel(db, tid, accountId, channelInput, probe, now);
    if o.Threw? {
      return Failure(500, VerifyFailed);
    }
    r := Success(VerifiedChannel(ChannelVerified, WithoutHash(o.value)));
  }

  // ---------------------------------------------------------------- the user's channels

  /** The channels listed for a user, without their access hashes. */
  function Published(stats: seq<ChannelStats>): (r: seq<PublicStats>)
    ensures |r| == |stats|
    ensures forall i :: 0 <= i < |r| ==> r[i] == WithoutHash(stats[i])
  {
    seq(|stats|, i requires 0 <= i < |stats| => WithoutHash(stats[i]))
  }

  /** `tgId` as the route puts it into the reply: the `bigint` column as read, or its decimal text. */
  function TgIdJson(p: PublicStats, asText: bool): (v: JsValue)
    ensures NoBigInt(v) <==> asText
    ensures asText ==> v == Str(IntToString(p.tgId))
  {
    if asText then Str(IntToString(p.tgId)) else BigInt(p.tgId)
  }

  /**
   * A listed channel as `c.json` receives it. The language list, which holds
   * only names and numbers, is left out of this value: it never decides
   * whether `JSON.stringify` throws.
   */
  function StatsJson(p: PublicStats, asText: bool): JsValue
  {
    Obj([("id", Num(p.id as real)),
         ("title", if p.title.Some? then Str(p.title.value) else Null),
         ("tgId", TgIdJson(p, asText)),
         ("tgLink", Str(p.tgLink)),
         ("subCount", Num(p.subCount as real)),
         ("avgPostReach", Num(p.avgPostReach as real))])
  }

  /** The reply's data array: `JSON.stringify` accepts it exactly when `tgId` was turned into text or nothing is listed. */
  function ListedJson(list: seq<PublicStats>, asText: bool): (v: JsValue)
    ensures NoBigInt(v) <==> asText || list == []
  {
    var v := Arr(seq(|list|, i requires 0 <= i < |list| => StatsJson(list[i], asText)));
    assert asText ==> forall i :: 0 <= i < |v.items| ==> NoBigInt(v.items[i]) by {
      if asText {
        forall i | 0 <= i < |v.items| ensures NoBigInt(v.items[i]) {
          var f := v.items[i].fields;
          assert forall j :: 0 <= j < |f| ==> NoBigInt(f[j].1);
        }
      }
    }
    assert !asText && list != [] ==> !NoBigInt(v.items[0]) by {
      if !asText && list != [] {
        assert v.items[0].fields[2].1 == BigInt(list[0].tgId);
      }
    }
    v
  }

  /**
   * The user's channels without their access hashes: every channel they
   * administer, in any role, once per admin row they hold for it; none when
   * `getChannelsByUser` throws.
   */
  method ListedChannels(db: Database, tid: int) returns (list: seq<PublicStats>)
    requires db.Valid()
    ensures forall i :: 0 <= i < |list| ==>
              list[i].id in db.channels && db.IsAdminOf(list[i].id, tid)
              && list[i] == WithoutHash(StatsOf(db.channels[list[i].id]))
    ensures forall c :: c in db.channels && db.IsAdminOf(c, tid) ==> exists i :: 0 <= i < |list| && list[i].id == c
    ensures OneRowPerPair(db.channelAdmins) ==> forall i, j :: 0 <= i < j < |list| ==> list[i].id != list[j].id
  {
    var o := GetChannelsByUser(db, tid, None);
    if o.Threw? {
      return [];
    }
    list := Published(o.value);
    forall c | c in db.channels && db.IsAdminOf(c, tid) ensures exists i :: 0 <= i < |list| && list[i].id == c {
      assert Offerable(db, c, tid, None);
      var i :| 0 <= i < |o.value| && o.value[i].id == c;
      assert list[i].id == c;
    }
  }

  /**
   * `handleGetChannels` as written: the listed channels still carry the
   * `bigint` `tgId` column when they reach `c.json`, so `JSON.stringify`
   * throws for any non-empty list and the catch answers with an empty list.
   * Every user therefore gets an empty list.
   */
  method GetChannels(db: Database, tid: int) returns (r: Reply<seq<PublicStats>>)
    requires db.Valid()
    ensures r == Success([])
  {
    var list := ListedChannels(db, tid);
    if !NoBigInt(ListedJson(list, false)) {
      return Success([]);
    }
    r := Success(list);
  }

  /**
   * `handleGetChannels` as intended, turning `tgId` into text as
   * `handleGetChannelsForRequest` does: every channel the user administers,
   * in any role; a user with none gets an empty list rather than the
   * helper's error.
   */
  method GetChannelsIntended(db: Database, tid: int) returns (r: Reply<seq<PublicStats>>)
    requires db.Valid()
    ensures r.Success?
    ensures forall i :: 0 <= i < |r.data| ==>
              r.data[i].id in db.channels && db.IsAdminOf(r.data[i].id, tid)
              && r.data[i] == WithoutHash(StatsOf(db.channels[r.data[i].id]))
    ensures forall c :: c in db.channels && db.IsAdminOf(c, tid) ==> exists i :: 0 <= i < |r.data| && r.data[i].id == c
    ensures OneRowPerPair(db.channelAdmins) ==> forall i, j :: 0 <= i < j < |r.data| ==> r.data[i].id != r.data[j].id
  {
    var list := ListedChannels(db, tid);
    assert NoBigInt(ListedJson(list, true));
    r := Success(list);
  }

  /**
   * `handleGetChannelsForRequest`: the request id is mandatory (an error with
   * status 200); an unknown request gives an empty list; otherwise the
   * user's channels that can serve it, and the helper's error as a 500 when
   * the user administers no channel with enough subscribers.
   */
  method GetChannelsForRequest(db: Database, tid: int, request: Option<int>) returns (r: Reply<seq<PublicStats>>)
    requires db.Valid()
    ensures request.None? ==> r == Failure(200, RequestIdMandatory)
    ensures request.Some? && request.value !in db.adRequests ==> r == Success([])
    ensures request.Some? && request.value in db.adRequests ==>
              var req := Some(db.adRequests[request.value]);
              (r.Failure? <==> !exists c :: c in db.channels && db.IsAdminOf(c, tid) && SubscribersOk(db.channels[c], req))
              && (r.Failure? ==> r == Failure(500, ErrorText(NoApplicableChannel)))
              && (r.Success? ==>
                    (forall i :: 0 <= i < |r.data| ==>
                       Offerable(db, r.data[i].id, tid, req) && r.data[i] == WithoutHash(StatsOf(db.channels[r.data[i].id])))
                    && (forall c :: Offerable(db, c, tid, req) ==> exists i :: 0 <= i < |r.data| && r.data[i].id == c)
                    && (OneRowPerPair(db.channelAdmins) ==>
                          forall i, j :: 0 <= i < j < |r.data| ==> r.data[i].id != r.data[j].id))
  {
    if request.None? {
      return Failure(200, RequestIdMandatory);
    }
    var o := GetChannelsByUser(db, tid, request);
    if o.Threw? {
      return Failure(500, o.error);
    }
    var list := Published(o.value);
    if request.value in db.adRequests {
      var req := Some(db.adRequests[request.value]);
      forall c | Offerable(db, c, tid, req) ensures exists i :: 0 <= i < |list| && list[i].id == c {
        var i :| 0 <= i < |o.value| && o.value[i].id == c;
        assert list[i].id == c;
      }
    }
    r := Success(list);
  }

  // ---------------------------------------------------------------- channel detail

  /** A channel as the detail page and the public catalogue show it. */
  datatype ChannelView = ChannelView(
    title: Option<string>, tgId: int, tgLink: string, subCount: int, avgPostReach: int,
    languages: seq<LanguageStat>, offersCount: int, adsPublished: int, listingInfo: Fields, isPublic: bool)

  /** The listing shown for a channel that never saved one: every price is zero. */
  const DefaultListing: Fields := [("postPrice", Num(0.0)), ("storyPrice", Num(0.0)), ("forwardPrice", Num(0.0))]

  /**
   * The projection of a stored channel: missing counts are 0, missing
   * languages an empty list, a missing listing the all-zero one, and the
   * channel is public only when the column holds `true`. Offer and
   * publication counters are always 0.
   */
  function ViewOf(c: Channel): (v: ChannelView)
    ensures v.tgId == c.tgId && v.tgLink == c.tgLink && v.title == c.title
    ensures v.offersCount == 0 && v.adsPublished == 0
    ensures v.isPublic <==> c.isPublic == Some(true)
    ensures c.listingInfo.None? ==>
              PostPrice(v.listingInfo) == Some(0.0) && Get(v.listingInfo, "storyPrice") == Num(0.0)
              && Get(v.listingInfo, "forwardPrice") == Num(0.0)
    ensures c.listingInfo.Some? ==> v.listingInfo == c.listingInfo.value
    ensures (c.subCount.None? ==> v.subCount == 0) && (c.subCount.Some? ==> v.subCount == c.subCount.value)
    ensures (c.avgPostReach.None? ==> v.avgPostReach == 0) && (c.avgPostReach.Some? ==> v.avgPostReach == c.avgPostReach.value)
    ensures (c.languages.None? ==> v.languages == []) && (c.languages.Some? ==> v.languages == c.languages.value)
  {
    ChannelView(c.title, c.tgId, c.tgLink, c.subCount.OrElse(0), c.avgPostReach.OrElse(0),
                c.languages.OrElse([]), 0, 0, c.listingInfo.OrElse(DefaultListing), c.isPublic.OrElse(false))
  }

  datatype ChannelDetail = ChannelDetail(id: int, channel: ChannelView, weeklyStats: seq<DayPosts>)

  /**
   * `handleGetChannelById`: 404 for an unknown Telegram id, 403 unless the
   * user has an admin row (any role) for the channel, otherwise the
   * projection with the weekly placeholder statistics (`today` is the day
   * of the week, `rolls` the seven random rolls).
   */
  method GetChannelById(db: Database, tgId: int, tid: int, today: int, rolls: seq<int>) returns (r: Reply<ChannelDetail>)
    requires db.Valid()
    requires 0 <= today < 7 && |rolls| == 7 && forall i :: 0 <= i < 7 ==> 0 <= rolls[i] < 10
    ensures (forall c :: !ChannelOfTgId(db, c, tgId)) ==> r == Failure(404, ChannelNotFound)
    ensures forall c :: ChannelOfTgId(db, c, tgId) ==>
              (!db.IsAdminOf(c, tid) ==> r == Failure(403, AccessDenied))
              && (db.IsAdminOf(c, tid) ==>
                    r == Success(ChannelDetail(c, ViewOf(db.channels[c]), WeeklyPostStats(today, rolls))))
  {
    var channel := db.FindChannelByTgId(tgId);
    if channel.None? {
      return Failure(404, ChannelNotFound);
    }
    var c: int := channel.value;
    var admin := db.FindAdmin(c, tid);
    assert ChannelOfTgId(db, c, tgId);
    if admin.None? {
      return Failure(403, AccessDenied);
    }
    r := Success(ChannelDetail(c, ViewOf(db.channels[c]), WeeklyPostStats(today, rolls)));
  }

  // ---------------------------------------------------------------- admins

  /** An admin row joined with its user. */
  datatype AdminWithUser = AdminWithUser(
    id: int, tgUserId: int, role: AdminRole, addedAt: int, source: AdminSource, user: User)

  function Joined(a: ChannelAdmin, u: User): AdminWithUser
  {
    AdminWithUser(a.id, a.tgUserId, a.role, a.addedAt, a.source, u)
  }

  /** The position of a role in the `channel_admin_role` enum: `owner` before `admin`. */
  function RoleRank(role: AdminRole): int
  {
    if role == Owner then 0 else 1
  }

  /** Row `k` of the channel whose user is registered: what the inner join keeps. */
  ghost predicate ListedAdmin(db: Database, k: int, c: int)
    reads db`channelAdmins, db`users
  {
    k in db.channelAdmins && db.channelAdmins[k].channelId == c && db.channelAdmins[k].tgUserId in db.users
  }

  /**
   * The admin list of a channel: each row joined with its user, once each,
   * ordered by role descending, so every `admin` comes before every `owner`.
   */
  method AdminsOf(db: Database, c: int) returns (list: seq<AdminWithUser>)
    requires db.Valid()
    ensures forall i :: 0 <= i < |list| ==>
              ListedAdmin(db, list[i].id, c)
              && list[i] == Joined(db.channelAdmins[list[i].id], db.users[db.channelAdmins[list[i].id].tgUserId])
    ensures forall k :: ListedAdmin(db, k, c) ==> exists i :: 0 <= i < |list| && list[i].id == k
    ensures forall i, j :: 0 <= i < j < |list| ==> list[i].id != list[j].id
    ensures forall i, j :: 0 <= i < j < |list| ==> RoleRank(list[j].role) <= RoleRank(list[i].role)
  {
    var admins := db.channelAdmins;
    var users := db.users;
    var keys := set k | k in admins && admins[k].channelId == c && admins[k].tgUserId in users;
    var score := (k: int) => if k in admins then RoleRank(admins[k].role) else 0;
    var ids := ListDesc(keys, score);
    SetListing(ids, keys);
    assert db.KeysValid() && db.AdminsKeyed();
    list := seq(|ids|, i requires 0 <= i < |ids| && ids[i] in admins && admins[ids[i]].tgUserId in users =>
                         Joined(admins[ids[i]], users[admins[ids[i]].tgUserId]));
    assert forall i :: 0 <= i < |ids| ==> list[i].id == ids[i];
    forall i | 0 <= i < |list|
      ensures ListedAdmin(db, list[i].id, c)
              && list[i] == Joined(db.channelAdmins[list[i].id], db.users[db.channelAdmins[list[i].id].tgUserId])
    {
      assert ids[i] in keys;
    }
    forall i, j | 0 <= i < j < |list| ensures RoleRank(list[j].role) <= RoleRank(list[i].role) {
      assert score(ids[j]) <= score(ids[i]);
    }
    forall k | ListedAdmin(db, k, c) ensures exists i :: 0 <= i < |list| && list[i].id == k {
      assert k in keys;
      var i :| 0 <= i < |ids| && ids[i] == k;
      assert list[i].id == k;
    }
  }

  /**
   * `handleGetChannelAdmins`: 404 for an unknown channel, 403 unless the user
   * has an admin row for it, otherwise the admin list.
   */
  method GetChannelAdmins(db: Database, tgId: int, tid: int) returns (r: Reply<seq<AdminWithUser>>)
    requires db.Valid()
    ensures (forall c :: !ChannelOfTgId(db, c, tgId)) ==> r == Failure(404, ChannelNotFound)
    ensures forall c :: ChannelOfTgId(db, c, tgId) ==>
              (!db.IsAdminOf(c, tid) ==> r == Failure(403, AccessDenied))
              && (db.IsAdminOf(c, tid) ==> r.Success?)
              && (r.Success? ==>
                    (forall i :: 0 <= i < |r.data| ==>
                       ListedAdmin(db, r.data[i].id, c)
                       && r.data[i] == Joined(db.channelAdmins[r.data[i].id], db.users[db.channelAdmins[r.data[i].id].tgUserId]))
                    && (forall i, j :: 0 <= i < j < |r.data| ==> r.data[i].id != r.data[j].id)
                    && (forall k :: ListedAdmin(db, k, c) ==> exists i :: 0 <= i < |r.data| && r.data[i].id == k)
                    && (forall i, j :: 0 <= i < j < |r.data| ==> !(r.data[i].role == Owner && r.data[j].role == Admin)))
  {
    var channel := db.FindChannelByTgId(tgId);
    if channel.None? {
      return Failure(404, ChannelNotFound);
    }
    var c: int := channel.value;
    var admin := db.FindAdmin(c, tid);
    assert ChannelOfTgId(db, c, tgId);
    if admin.None? {
      return Failure(403, AccessDenied);
    }
    var list := AdminsOf(db, c);
    assert RoleRank(Owner) < RoleRank(Admin);
    forall i, j | 0 <= i < j < |list| ensures !(list[i].role == Owner && list[j].role == Admin) {
      assert RoleRank(list[j].role) <= RoleRank(list[i].role);
    }
    r := Success(list);
    assert !(forall c' :: !ChannelOfTgId(db, c', tgId)) by {
      assert ChannelOfTgId(db, c, tgId);
    }
  }

  /**
   * `handleAddAdmin`: a refused body is a 422 with zod's message; 404 for an
   * unknown channel; 403 unless the user has an admin row for it (any role:
   * an `admin` may invite); then the invited user is checked on Telegram
   * and recorded as an `admin` from an `invite`, and a throw on the way is a
   * 500 carrying it. The invitation as written always returns its new row,
   * so the 403 "Admin already exists" is never answered and a user invited
   * twice holds two rows.
   */
  method AddAdmin(db: Database, tgId: int, tid: int, body: BodyParse<string>,
                  probe: (string, string) -> AdminProbe, now: int) returns (r: Reply<ChannelAdmin>)
    requires db.Valid()
    modifies db`channelAdmins, db`nextId
    ensures db.Valid()
    ensures r.Failure? ==> db.channelAdmins == old(db.channelAdmins)
    ensures body.BodyRefused? ==> r == Failure(422, body.message)
    ensures body.BodyOk? && (forall c :: !ChannelOfTgId(db, c, tgId)) ==> r == Failure(404, ChannelNotFound)
    ensures body.BodyOk? ==>
              forall c :: ChannelOfTgId(db, c, tgId) ==>
                var p := probe(ChannelUsername(db.channels[c].tgLink), body.value);
                (!old(db.IsAdminOf(c, tid)) ==> r == Failure(403, AccessDenied))
                && (old(db.IsAdminOf(c, tid)) && !db.HasActiveSession() ==> r == Failure(500, ErrorText(NotAValidAccount)))
                && (old(db.IsAdminOf(c, tid)) && db.HasActiveSession() && p.AdminProbeFailed? ==> r == Failure(500, p.error))
                && (old(db.IsAdminOf(c, tid)) && db.HasActiveSession() && p.AdminNotAChannel? ==>
                      r == Failure(500, ErrorText(NotAChannelMessage)))
                && (old(db.IsAdminOf(c, tid)) && db.HasActiveSession() && p.AdminParticipant? && !p.isAdmin ==>
                      r == Failure(500, ErrorText(InvitedNotAdmin)))
                && (old(db.IsAdminOf(c, tid)) && db.HasActiveSession() && p.AdminParticipant? && p.isAdmin ==>
                      r.Success? && r.data == InviteRow(r.data.id, c, p.userId, now)
                      && r.data.id !in old(db.channelAdmins)
                      && db.channelAdmins == old(db.channelAdmins)[r.data.id := r.data])
    ensures r != Failure(403, AdminAlreadyExists)
  {
    if body.BodyRefused? {
      return Failure(422, body.message);
    }
    var channel := db.FindChannelByTgId(tgId);
    if channel.None? {
      return Failure(404, ChannelNotFound);
    }
    var c: int := channel.value;
    var admin := db.FindAdmin(c, tid);
    assert ChannelOfTgId(db, c, tgId);
    if admin.None? {
      return Failure(403, AccessDenied);
    }
    var o := SyncNewAdminByOwner(db, body.value, db.channels[c].tgLink, c, probe, now);
    assert ChannelOfTgId(db, c, tgId);
    if o.Threw? {
      return Failure(500, o.error);
    }
    // The check for a missing row that would answer "Admin already exists" never fires: the invitation always returns one.
    r := Success(o.value.value);
  }

  /** `tid` has an `owner` row for the channel and row `adminId` is another user's non-owner row of it. */
  ghost predicate Demotable(admins: map<int, ChannelAdmin>, c: int, tid: int, adminId: int)
  {
    (exists k :: k in admins && admins[k].channelId == c && admins[k].tgUserId == tid && admins[k].role == Owner)
    && adminId in admins && admins[adminId].channelId == c && admins[adminId].role == Admin
    && admins[adminId].tgUserId != tid
  }

  /**
   * `handleDemoteAdmin`: in order, 404 for an unknown channel, 403 unless the
   * user is an owner of it, 404 unless `adminId` is an admin row of this
   * channel, 400 for an owner row, 400 for the user's own row (an owner who
   * invited themselves holds an `admin` row too); then exactly that row is
   * deleted.
   */
  method DemoteAdmin(db: Database, tgId: int, tid: int, adminId: int) returns (r: Reply<string>)
    requires db.Valid()
    modifies db`channelAdmins
    ensures db.Valid()
    ensures r.Failure? ==> db.channelAdmins == old(db.channelAdmins)
    ensures r.Success? ==> r.data == AdminDemoted && db.channelAdmins == old(db.channelAdmins) - {adminId}
    ensures forall k :: k in old(db.channelAdmins) && old(db.channelAdmins)[k].role == Owner ==>
              k in db.channelAdmins && db.channelAdmins[k] == old(db.channelAdmins)[k]
    ensures (forall c :: !ChannelOfTgId(db, c, tgId)) ==> r == Failure(404, ChannelNotFound)
    ensures forall c :: ChannelOfTgId(db, c, tgId) ==>
              var admins := old(db.channelAdmins);
              (!old(db.IsOwnerOf(c, tid)) ==> r == Failure(403, OnlyOwnersDemote))
              && (old(db.IsOwnerOf(c, tid)) && !(adminId in admins && admins[adminId].channelId == c) ==>
                    r == Failure(404, AdminNotFound))
              && ((old(db.IsOwnerOf(c, tid)) && adminId in admins && admins[adminId].channelId == c
                   && admins[adminId].role == Owner) ==> r == Failure(400, CannotDemoteOwner))
              && ((old(db.IsOwnerOf(c, tid)) && adminId in admins && admins[adminId].channelId == c
                   && admins[adminId].role == Admin && admins[adminId].tgUserId == tid) ==> r == Failure(400, CannotDemoteSelf))
              && (r.Success? <==> Demotable(admins, c, tid, adminId))
  {
    var channel := db.FindChannelByTgId(tgId);
    if channel.None? {
      return Failure(404, ChannelNotFound);
    }
    var c: int := channel.value;
    assert ChannelOfTgId(db, c, tgId);
    var admins := db.channelAdmins;
    if !(exists k :: k in admins && admins[k].channelId == c && admins[k].tgUserId == tid && admins[k].role == Owner) {
      return Failure(403, OnlyOwnersDemote);
    }
    if !(adminId in admins && admins[adminId].channelId == c) {
      return Failure(404, AdminNotFound);
    }
    var target := admins[adminId];
    if target.role == Owner {
      return Failure(400, CannotDemoteOwner);
    }
    if target.tgUserId == tid {
      return Failure(400, CannotDemoteSelf);
    }
    db.DeleteChannelAdmin(adminId);
    assert ChannelOfTgId(db, c, tgId);
    r := Success(AdminDemoted);
  }

  // ---------------------------------------------------------------- listing settings

  /**
   * The `is_public` column after `.set({ isPublic, ... })`: a boolean is
   * stored, `null` clears it, an absent property leaves it as it was;
   * anything else is a value the column refuses (`None`).
   */
  function IsPublicColumn(v: JsValue, current: Option<bool>): (r: Option<Option<bool>>)
    ensures r.None? <==> !(v.Bool? || v.Null? || v.Undefined?)
    ensures r == Some(Some(true)) <==> v == Bool(true) || (v.Undefined? && current == Some(true))
  {
    match v
    case Bool(b) => Some(Some(b))
    case Null => Some(None)
    case Undefined => Some(current)
    case _ => None
  }

  /** The channel after a listing update: the body without `isPublic` is the listing. */
  function WithListing(c: Channel, body: Fields, isPublic: Option<bool>, now: int): Channel
  {
    c.(listingInfo := Some(Without(body, "isPublic")), isPublic := isPublic, updatedAt := now)
  }

  /**
   * `handleListingSetting`: a refused body is a 422 with zod's message; 404
   * for an unknown channel; 403 unless the user has an admin row for it;
   * otherwise the listing, the public flag and `updatedAt` are written, and
   * nothing else.
   */
  method ListingSetting(db: Database, tgId: int, tid: int, body: BodyParse<Fields>, now: int) returns (r: Reply<string>)
    requires db.Valid()
    modifies db`channels
    ensures db.Valid()
    ensures r.Failure? ==> db.channels == old(db.channels)
    ensures body.BodyRefused? ==> r == Failure(422, body.message)
    ensures body.BodyOk? && (forall c :: !ChannelOfTgId(db, c, tgId)) ==> r == Failure(404, ChannelNotFound)
    ensures body.BodyOk? ==>
              forall c :: c in old(db.channels) && old(db.channels)[c].tgId == tgId ==>
                var column := IsPublicColumn(Get(body.value, "isPublic"), old(db.channels)[c].isPublic);
                (!db.IsAdminOf(c, tid) ==> r == Failure(403, NoAccess))
                && (db.IsAdminOf(c, tid) && column.None? ==> r == Failure(500, ListingFailed))
                && (db.IsAdminOf(c, tid) && column.Some? ==>
                      r == Success(ListingUpdated)
                      && db.channels == old(db.channels)[c := WithListing(old(db.channels)[c], body.value, column.value, now)])
  {
    if body.BodyRefused? {
      return Failure(422, body.message);
    }
    var channel := db.FindChannelByTgId(tgId);
    if channel.None? {
      return Failure(404, ChannelNotFound);
    }
    var c: int := channel.value;
    var admin := db.FindAdmin(c, tid);
    assert ChannelOfTgId(db, c, tgId);
    if admin.None? {
      return Failure(403, NoAccess);
    }
    var column := IsPublicColumn(Get(body.value, "isPublic"), db.channels[c].isPublic);
    if column.None? {
      return Failure(500, ListingFailed);
    }
    db.UpdateChannel(WithListing(db.channels[c], body.value, column.value, now));
    assert ChannelOfTgId(db, c, tgId);
    r := Success(ListingUpdated);
  }

  /**
   * What the detail page shows after a listing update: every property sent
   * except `isPublic`, which is no longer part of the listing, and the rest
   * of the channel as before.
   */
  lemma ListingShownAsSaved(c: Channel, body: Fields, isPublic: Option<bool>, now: int)
    ensures "isPublic" !in Keys(ViewOf(WithListing(c, body, isPublic, now)).listingInfo)
    ensures forall k :: k != "isPublic" ==> Get(ViewOf(WithListing(c, body, isPublic, now)).listingInfo, k) == Get(body, k)
    ensures ViewOf(WithListing(c, body, isPublic, now)).isPublic <==> isPublic == Some(true)
    ensures ViewOf(WithListing(c, body, isPublic, now)).(listingInfo := [], isPublic := false)
            == ViewOf(c).(listingInfo := [], isPublic := false)
  {
  }

  // ---------------------------------------------------------------- public catalogue

  /**
   * `handleGetPublicChannels`: the projection of every channel whose public
   * flag is `true` (a null flag is not public), once each; the query has no
   * order, which the model fixes by id.
   */
  method GetPublicChannels(db: Database) returns (r: Reply<seq<ChannelView>>)
    requires db.Valid()
    ensures r.Success?
    ensures forall i :: 0 <= i < |r.data| ==>
              r.data[i].isPublic
              && exists k :: k in db.channels && db.channels[k].isPublic == Some(true) && r.data[i] == ViewOf(db.channels[k])
    ensures forall k :: k in db.channels && db.channels[k].isPublic == Some(true) ==> ViewOf(db.channels[k]) in r.data
    ensures forall i, j :: 0 <= i < j < |r.data| ==> r.data[i].tgId != r.data[j].tgId
  {
    var chs := db.channels;
    var keys := set k | k in chs && chs[k].isPublic == Some(true);
    var ids := ListDesc(keys, (k: int) => k);
    SetListing(ids, keys);
    var list := seq(|ids|, i requires 0 <= i < |ids| && ids[i] in chs => ViewOf(chs[ids[i]]));
    forall k | k in chs && chs[k].isPublic == Some(true) ensures ViewOf(chs[k]) in list {
      assert k in keys;
      var i :| 0 <= i < |ids| && ids[i] == k;
      assert list[i] == ViewOf(chs[k]);
    }
    forall i, j | 0 <= i < j < |list| ensures list[i].tgId != list[j].tgId {
      assert ids[i] != ids[j];
    }
    r := Success(list);
  }
}
