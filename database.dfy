/**
 * The PostgreSQL database the backend writes through drizzle, as one object
 * whose tables are maps from primary key to row. Identity columns draw from
 * `nextId`; uuid keys (login flows, sessions) are supplied by the caller.
 * `Valid` collects the key and uniqueness constraints of
 * apps/backend/src/db/schema.ts that the handlers rely on.
 */
module Db {
  import opened Wrappers
  import opened Schema
  import opened Ordering

  class Database {
    var users: map<int, User>
    var channels: map<int, Channel>
    var channelAdmins: map<int, ChannelAdmin>
    var adRequests: map<int, AdRequest>
    var applications: map<int, Application>
    var deals: map<int, Deal>
    var creatives: map<int, Creative>
    var payments: map<int, Payment>
    var escrowWallets: map<int, EscrowWallet>
    var loginFlows: map<string, LoginFlow>
    var sessions: map<string, TgSession>
    var nextId: int

    /** Every row is stored under its own key, and every identity key was drawn before `nextId`. */
    ghost predicate UsersKeyed() reads this`users
    { forall k :: k in users ==> users[k].tid == k }
    ghost predicate ChannelsKeyed() reads this`channels, this`nextId
    { forall k :: k in channels ==> channels[k].id == k && k < nextId }
    ghost predicate AdminsKeyed() reads this`channelAdmins, this`nextId
    { forall k :: k in channelAdmins ==> channelAdmins[k].id == k && k < nextId }
    ghost predicate AdRequestsKeyed() reads this`adRequests, this`nextId
    { forall k :: k in adRequests ==> adRequests[k].id == k && k < nextId }
    ghost predicate ApplicationsKeyed() reads this`applications, this`nextId
    { forall k :: k in applications ==> applications[k].id == k && k < nextId }
    ghost predicate DealsKeyed() reads this`deals, this`nextId
    { forall k :: k in deals ==> deals[k].id == k && k < nextId }
    ghost predicate CreativesKeyed() reads this`creatives, this`nextId
    { forall k :: k in creatives ==> creatives[k].id == k && k < nextId }
    ghost predicate PaymentsKeyed() reads this`payments, this`nextId
    { forall k :: k in payments ==> payments[k].id == k && k < nextId }
    ghost predicate WalletsKeyed() reads this`escrowWallets, this`nextId
    { forall k :: k in escrowWallets ==> escrowWallets[k].id == k && k < nextId }
    ghost predicate FlowsKeyed() reads this`loginFlows
    { forall k :: k in loginFlows ==> loginFlows[k].id == k }
    ghost predicate SessionsKeyed() reads this`sessions
    { forall k :: k in sessions ==> sessions[k].id == k }

    ghost predicate KeysValid()
      reads this
    {
      UsersKeyed() && ChannelsKeyed() && AdminsKeyed() && AdRequestsKeyed() && ApplicationsKeyed()
      && DealsKeyed() && CreativesKeyed() && PaymentsKeyed() && WalletsKeyed() && FlowsKeyed() && SessionsKeyed()
    }

    /** `payments.deal_id` is unique: a deal has at most one payment. */
    ghost predicate OnePaymentPerDeal()
      reads this`payments
    {
      forall p, q :: p in payments && q in payments && payments[p].dealId == payments[q].dealId ==> p == q
    }

    /** `channels.tg_id` is unique. */
    ghost predicate UniqueChannelTgIds()
      reads this`channels
    {
      forall a, b :: a in channels && b in channels && channels[a].tgId == channels[b].tgId ==> a == b
    }

    /** `tg_login_flows.storage_key` is unique. */
    ghost predicate UniqueFlowKeys()
      reads this`loginFlows
    {
      forall a, b :: a in loginFlows && b in loginFlows && loginFlows[a].storageKey == loginFlows[b].storageKey ==> a == b
    }

    /** `tg_sessions.storage_key` is unique. */
    ghost predicate UniqueSessionKeys()
      reads this`sessions
    {
      forall a, b :: a in sessions && b in sessions && sessions[a].storageKey == sessions[b].storageKey ==> a == b
    }

    ghost predicate Valid()
      reads this
    {
      KeysValid() && OnePaymentPerDeal() && UniqueChannelTgIds()
      && UniqueFlowKeys() && UniqueSessionKeys()
    }

    constructor ()
      ensures Valid()
      ensures users == map[] && channels == map[] && channelAdmins == map[] && adRequests == map[]
      ensures applications == map[] && deals == map[] && creatives == map[] && payments == map[]
      ensures escrowWallets == map[] && loginFlows == map[] && sessions == map[]
    {
      users, channels, channelAdmins, adRequests := map[], map[], map[], map[];
      applications, deals, creatives, payments := map[], map[], map[], map[];
      escrowWallets, loginFlows, sessions := map[], map[], map[];
      nextId := 1;
    }

    // ------------------------------------------------------------ row updates

    /** `update deals set ... where id`: replaces one existing row. */
    method UpdateDeal(d: Deal)
      requires Valid() && d.id in deals
      modifies this`deals
      ensures Valid() && deals == old(deals)[d.id := d]
    {
      deals := deals[d.id := d];
    }

    /** `update payments set ... where id`, keeping the row's deal. */
    method UpdatePayment(p: Payment)
      requires Valid() && p.id in payments && p.dealId == payments[p.id].dealId
      modifies this`payments
      ensures Valid() && payments == old(payments)[p.id := p]
    {
      payments := payments[p.id := p];
    }

    /** `update ad_requests set ... where id`. */
    method UpdateAdRequest(a: AdRequest)
      requires Valid() && a.id in adRequests
      modifies this`adRequests
      ensures Valid() && adRequests == old(adRequests)[a.id := a]
    {
      adRequests := adRequests[a.id := a];
    }

    /** `update deal_creatives set ... where id`. */
    method UpdateCreative(c: Creative)
      requires Valid() && c.id in creatives
      modifies this`creatives
      ensures Valid() && creatives == old(creatives)[c.id := c]
    {
      creatives := creatives[c.id := c];
    }

    /** `update ad_applications set ... where id`. */
    method UpdateApplication(a: Application)
      requires Valid() && a.id in applications
      modifies this`applications
      ensures Valid() && applications == old(applications)[a.id := a]
    {
      applications := applications[a.id := a];
    }

    /** `update channels set ... where id`, keeping the row's Telegram id. */
    method UpdateChannel(c: Channel)
      requires Valid() && c.id in channels && c.tgId == channels[c.id].tgId
      modifies this`channels
      ensures Valid() && channels == old(channels)[c.id := c]
    {
      channels := channels[c.id := c];
    }

    /** `update tg_login_flows set ... where id`, keeping the row's storage key. */
    method UpdateLoginFlow(f: LoginFlow)
      requires Valid() && f.id in loginFlows && f.storageKey == loginFlows[f.id].storageKey
      modifies this`loginFlows
      ensures Valid() && loginFlows == old(loginFlows)[f.id := f]
    {
      loginFlows := loginFlows[f.id := f];
    }

    /** Draws the next identity value. */
    method NextId() returns (id: int)
      requires Valid()
      modifies this`nextId
      ensures Valid() && id == old(nextId) && nextId == id + 1
      ensures id !in channels && id !in channelAdmins && id !in adRequests && id !in applications
      ensures id !in deals && id !in creatives && id !in payments && id !in escrowWallets
    {
      id := nextId;
      nextId := nextId + 1;
    }

    // ------------------------------------------------------------ inserts and deletes

    /** `insert into escrow_wallets ... returning`: the wallet under a fresh identity. */
    method InsertEscrowWallet(address: string, publicKey: string, privateKey: string) returns (id: int)
      requires Valid()
      modifies this`escrowWallets, this`nextId
      ensures Valid() && id == old(nextId) && nextId == id + 1 && id !in old(escrowWallets)
      ensures escrowWallets == old(escrowWallets)[id := EscrowWallet(id, address, publicKey, privateKey)]
    {
      id := nextId;
      nextId := nextId + 1;
      escrowWallets := escrowWallets[id := EscrowWallet(id, address, publicKey, privateKey)];
    }

    /** `insert into payments`, for a deal that has no payment yet (`deal_id` is unique). */
    method InsertPayment(p: Payment)
      requires Valid() && p.id !in payments && p.id < nextId
      requires forall k :: k in payments ==> payments[k].dealId != p.dealId
      modifies this`payments
      ensures Valid() && payments == old(payments)[p.id := p]
    {
      payments := payments[p.id := p];
    }

    /** `insert into deal_creatives`. */
    method InsertCreative(c: Creative)
      requires Valid() && c.id !in creatives && c.id < nextId
      modifies this`creatives
      ensures Valid() && creatives == old(creatives)[c.id := c]
    {
      creatives := creatives[c.id := c];
    }

    /** `insert into ad_applications`. */
    method InsertApplication(a: Application)
      requires Valid() && a.id !in applications && a.id < nextId
      modifies this`applications
      ensures Valid() && applications == old(applications)[a.id := a]
    {
      applications := applications[a.id := a];
    }

    /**
     * `delete from ad_requests where id`, with the `on delete cascade` of
     * `ad_applications.ad_request_id`: the request's applications go too. No
     * deal may still reference one of them (`deals.application_id` does not cascade).
     */
    method DeleteAdRequest(id: int)
      requires Valid()
      requires forall d :: d in deals && deals[d].applicationId in applications ==>
                             applications[deals[d].applicationId].adRequestId != id
      modifies this`adRequests, this`applications
      ensures Valid() && adRequests == old(adRequests) - {id}
      ensures applications == map k | k in old(applications) && old(applications)[k].adRequestId != id :: old(applications)[k]
    {
      adRequests := adRequests - {id};
      applications := map k | k in applications && applications[k].adRequestId != id :: applications[k];
    }

    /**
     * `insert into channel_admins` under a fresh identity. The table has no
     * unique key on (channel, user), so nothing stops a second row for a pair.
     */
    method InsertChannelAdmin(a: ChannelAdmin)
      requires Valid() && a.id !in channelAdmins && a.id < nextId
      modifies this`channelAdmins
      ensures Valid() && channelAdmins == old(channelAdmins)[a.id := a]
    {
      channelAdmins := channelAdmins[a.id := a];
    }

    /** `delete from channel_admins where id`. */
    method DeleteChannelAdmin(id: int)
      requires Valid()
      modifies this`channelAdmins
      ensures Valid() && channelAdmins == old(channelAdmins) - {id}
    {
      channelAdmins := channelAdmins - {id};
    }

    /** `insert into channels`, for a Telegram id not yet stored (`tg_id` is unique). */
    method InsertChannel(c: Channel)
      requires Valid() && c.id !in channels && c.id < nextId
      requires forall k :: k in channels ==> channels[k].tgId != c.tgId
      modifies this`channels
      ensures Valid() && channels == old(channels)[c.id := c]
    {
      channels := channels[c.id := c];
    }

    /** `insert into tg_login_flows`, under a new id and a storage key not yet used. */
    method InsertLoginFlow(f: LoginFlow)
      requires Valid() && f.id !in loginFlows
      requires forall k :: k in loginFlows ==> loginFlows[k].storageKey != f.storageKey
      modifies this`loginFlows
      ensures Valid() && loginFlows == old(loginFlows)[f.id := f]
    {
      loginFlows := loginFlows[f.id := f];
    }

    /** `insert into tg_sessions`, under a new id and a storage key not yet used. */
    method InsertSession(t: TgSession)
      requires Valid() && t.id !in sessions
      requires forall k :: k in sessions ==> sessions[k].storageKey != t.storageKey
      modifies this`sessions
      ensures Valid() && sessions == old(sessions)[t.id := t]
    {
      sessions := sessions[t.id := t];
    }

    // ------------------------------------------------------------ queries

    /** `tid` has a `channel_admins` row for the channel, whatever its role. */
    ghost predicate IsAdminOf(channelId: int, tid: int)
      reads this`channelAdmins
    {
      exists k :: k in channelAdmins && channelAdmins[k].channelId == channelId && channelAdmins[k].tgUserId == tid
    }

    /** `tid` has an `owner`-role row for the channel. */
    ghost predicate IsOwnerOf(channelId: int, tid: int)
      reads this`channelAdmins
    {
      exists k :: k in channelAdmins && channelAdmins[k].channelId == channelId
        && channelAdmins[k].tgUserId == tid && channelAdmins[k].role == Owner
    }

    /** Some login session is `active`. */
    ghost predicate HasActiveSession()
      reads this`sessions
    {
      exists k :: k in sessions && sessions[k].status == Active
    }

    /** The admin row of `tid` for the channel, if any (`select ... where channel_id and tg_user_id limit 1`). */
    method FindAdmin(channelId: int, tid: int) returns (r: Option<int>)
      ensures r.Some? ==> r.value in channelAdmins && channelAdmins[r.value].channelId == channelId
                          && channelAdmins[r.value].tgUserId == tid
      ensures r.None? <==> !IsAdminOf(channelId, tid)
    {
      if k :| k in channelAdmins && channelAdmins[k].channelId == channelId && channelAdmins[k].tgUserId == tid {
        r := Some(k);
      } else {
        r := None;
      }
    }

    /** An `owner`-role admin row of the channel, if any. */
    method FindOwner(channelId: int) returns (r: Option<int>)
      ensures r.Some? ==> r.value in channelAdmins && channelAdmins[r.value].channelId == channelId
                          && channelAdmins[r.value].role == Owner
      ensures r.None? ==> forall k :: k in channelAdmins && channelAdmins[k].channelId == channelId ==>
                                        channelAdmins[k].role != Owner
    {
      if k :| k in channelAdmins && channelAdmins[k].channelId == channelId && channelAdmins[k].role == Owner {
        r := Some(k);
      } else {
        r := None;
      }
    }

    /** The payment of a deal (`select ... where deal_id`), unique when it exists. */
    method FindPaymentOfDeal(dealId: int) returns (r: Option<int>)
      requires Valid()
      ensures r.Some? ==> r.value in payments && payments[r.value].dealId == dealId
      ensures r.Some? ==> forall k :: k in payments && payments[k].dealId == dealId ==> k == r.value
      ensures r.None? ==> forall k :: k in payments ==> payments[k].dealId != dealId
    {
      if k :| k in payments && payments[k].dealId == dealId {
        r := Some(k);
      } else {
        r := None;
      }
    }

    /** The storage key of some `active` session (`where status = 'active' limit 1`). */
    method FindActiveSession() returns (r: Option<string>)
      ensures r.Some? ==> r.value in sessions && sessions[r.value].status == Active
      ensures r.None? <==> !HasActiveSession()
    {
      if k :| k in sessions && sessions[k].status == Active {
        r := Some(k);
      } else {
        r := None;
      }
    }

    /** A creative of the deal, other than a draft when drafts are excluded. */
    ghost predicate CreativeOfDeal(k: int, dealId: int, excludeDrafts: bool)
      reads this`creatives
    {
      k in creatives && creatives[k].dealId == dealId && !(excludeDrafts && creatives[k].status == Draft)
    }

    /**
     * `select ... from deal_creatives where deal_id [and status <> 'draft']
     * order by version desc limit 1`: a creative of the deal with the highest
     * version, if the deal has any.
     */
    method LatestCreative(dealId: int, excludeDrafts: bool) returns (r: Option<int>)
      ensures r.Some? ==> CreativeOfDeal(r.value, dealId, excludeDrafts)
      ensures r.Some? ==> forall k :: CreativeOfDeal(k, dealId, excludeDrafts) ==> creatives[k].version <= creatives[r.value].version
      ensures r.None? <==> forall k :: !CreativeOfDeal(k, dealId, excludeDrafts)
    {
      var cs := creatives;
      var candidates := set k | k in cs && cs[k].dealId == dealId && !(excludeDrafts && cs[k].status == Draft);
      if candidates == {} {
        assert forall k :: CreativeOfDeal(k, dealId, excludeDrafts) ==> k in candidates;
        return None;
      }
      var score := (k: int) => if k in cs then cs[k].version else 0;
      MaxExists(candidates, score);
      var m :| m in candidates && forall x :: x in candidates ==> score(x) <= score(m);
      assert forall k :: CreativeOfDeal(k, dealId, excludeDrafts) ==> k in candidates;
      r := Some(m);
    }

    /**
     * `select ... from deal_creatives where deal_id order by version desc`:
     * every creative of the deal, once each, highest version first.
     */
    method CreativesByVersion(dealId: int) returns (ks: seq<int>)
      ensures forall i :: 0 <= i < |ks| ==> ks[i] in creatives && creatives[ks[i]].dealId == dealId
      ensures forall k :: CreativeOfDeal(k, dealId, false) ==> k in ks
      ensures forall i, j :: 0 <= i < j < |ks| ==> ks[i] != ks[j]
      ensures forall i, j :: 0 <= i < j < |ks| ==> creatives[ks[j]].version <= creatives[ks[i]].version
    {
      var cs := creatives;
      var keys := set k | k in cs && cs[k].dealId == dealId;
      var score := (k: int) => if k in cs then cs[k].version else 0;
      ks := ListDesc(keys, score);
      SetListing(ks, keys);
      forall i, j | 0 <= i < j < |ks| ensures creatives[ks[j]].version <= creatives[ks[i]].version {
        assert score(ks[j]) <= score(ks[i]);
      }
      forall k | CreativeOfDeal(k, dealId, false) ensures k in ks {
        assert k in keys;
      }
    }

    /** `tid` has a `channel_admins` row for some channel. */
    ghost predicate HasChannels(tid: int)
      reads this`channelAdmins
    {
      exists k :: k in channelAdmins && channelAdmins[k].tgUserId == tid
    }

    /** Some channel `tid` administers has applied to the ad request. */
    ghost predicate HasApplied(adRequestId: int, tid: int)
      reads this`applications, this`channelAdmins
    {
      exists a :: a in applications && applications[a].adRequestId == adRequestId
                  && IsAdminOf(applications[a].channelId, tid)
    }

    /** `select channel_id from channel_admins where tg_user_id`, asked whether it is empty. */
    method AdministersAny(tid: int) returns (b: bool)
      ensures b <==> HasChannels(tid)
    {
      b := exists k :: k in channelAdmins && channelAdmins[k].tgUserId == tid;
    }

    /**
     * `select ... from ad_applications where ad_request_id and exists (an
     * admin row of the applying channel for tid) limit 1`, asked whether it is empty.
     */
    method AppliedWithOwnChannel(adRequestId: int, tid: int) returns (b: bool)
      ensures b <==> HasApplied(adRequestId, tid)
    {
      b := exists a :: a in applications && applications[a].adRequestId == adRequestId
                       && exists k :: k in channelAdmins && channelAdmins[k].channelId == applications[a].channelId
                                      && channelAdmins[k].tgUserId == tid;
    }

    /** The application of a channel to an ad request, if any. */
    method FindApplication(adRequestId: int, channelId: int) returns (r: Option<int>)
      ensures r.Some? ==> r.value in applications && applications[r.value].adRequestId == adRequestId
                          && applications[r.value].channelId == channelId
      ensures r.None? ==> forall k :: k in applications ==>
                            applications[k].adRequestId != adRequestId || applications[k].channelId != channelId
    {
      if k :| k in applications && applications[k].adRequestId == adRequestId && applications[k].channelId == channelId {
        r := Some(k);
      } else {
        r := None;
      }
    }

    /** Some deal was made from an application to the ad request. */
    method DealOfAdRequest(adRequestId: int) returns (b: bool)
      ensures b <==> exists d :: d in deals && deals[d].applicationId in applications
                                 && applications[deals[d].applicationId].adRequestId == adRequestId
    {
      b := exists d :: d in deals && deals[d].applicationId in applications
                       && applications[deals[d].applicationId].adRequestId == adRequestId;
    }

    /** The channel with a Telegram id (`where tg_id`), unique when it exists. */
    method FindChannelByTgId(tgId: int) returns (r: Option<int>)
      requires Valid()
      ensures r.Some? ==> r.value in channels && channels[r.value].tgId == tgId
      ensures r.Some? ==> forall k :: k in channels && channels[k].tgId == tgId ==> k == r.value
      ensures r.None? ==> forall k :: k in channels ==> channels[k].tgId != tgId
    {
      if k :| k in channels && channels[k].tgId == tgId {
        r := Some(k);
      } else {
        r := None;
      }
    }
  }
}
