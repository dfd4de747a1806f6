/**
 * The helpers behind the channel routes
 * (apps/backend/src/routes/api/channels/helpers.ts): how a channel's public
 * username and `t.me` link are derived from what the user typed, how the
 * audience-language statistics Telegram returns are summed and ranked, how a
 * verified channel is stored and its verifier recorded as its owner, how an
 * owner's invitation records a new admin, which channels a user may offer for
 * an ad request, and the weekday order of the weekly statistics.
 *
 * Telegram is reached through function-typed gateway parameters that return
 * what the client calls would have produced; a thrown error is an
 * `Outcome.Threw` carrying the error's string form (`${error}`).
 */
module ChannelHelpers {
  import opened Wrappers
  import opened JsValues
  import opened JsText
  import opened Schema
  import opened Db
  import opened Ordering
  import Zod

  /** The string form of `new Error(message)`. */
  function ErrorText(message: string): string
  {
    "Error: " + message
  }

  // ---------------------------------------------------------------- usernames and links

  const TMe: string := "https://t.me/"

  /**
   * `input.replace("@", "").split("/").pop() ?? ""`: drops the first `@`, then
   * keeps what follows the last `/`.
   */
  function ChannelUsername(input: string): (u: string)
    ensures '/' !in u
    ensures var s := ReplaceFirst(input, "@", ""); |u| <= |s| && u == s[|s| - |u|..]
  {
    var s := ReplaceFirst(input, "@", "");
    LastSegmentIsSuffix(s, '/');
    LastSegment(s, '/')
  }

  /** The link stored for a channel: `https://t.me/${username}`. */
  function TgLink(username: string): string
  {
    TMe + username
  }

  /** A bare handle and an `@handle` both give the handle itself. */
  lemma UsernameOfHandle(u: string)
    requires '/' !in u && '@' !in u
    ensures ChannelUsername(u) == u
    ensures ChannelUsername("@" + u) == u
  {
    RemoveFirstChar(u, '@');
    LastSegmentIsSuffix(u, '/');
    var s := "@" + u;
    RemoveFirstChar(s, '@');
    var i :| 0 <= i < |s| && s[i] == '@' && '@' !in s[..i] && ReplaceFirst(s, "@", "") == s[..i] + s[i + 1..];
    if i > 0 {
      assert false;
    }
    assert ReplaceFirst(s, "@", "") == u;
  }

  /** Any link ending in `/handle` gives the handle, whatever host and path come before it. */
  lemma UsernameOfLink(prefix: string, u: string)
    requires '@' !in prefix && '@' !in u && '/' !in u
    ensures ChannelUsername(prefix + "/" + u) == u
  {
    var s := prefix + "/" + u;
    assert '@' !in s;
    RemoveFirstChar(s, '@');
    LastSegmentAfterSeparator(prefix, '/', u);
  }

  /** The stored link leads back to the username it was built from. */
  lemma UsernameOfTgLink(u: string)
    requires '@' !in u && '/' !in u
    ensures ChannelUsername(TgLink(u)) == u
  {
    assert TgLink(u) == "https://t.me" + "/" + u;
    UsernameOfLink("https://t.me", u);
  }

  // ---------------------------------------------------------------- language statistics

  /**
   * A column of a statistics graph's JSON: its first cell, when that is a
   * string (the series key), and the numbers after it.
   */
  datatype Column = Column(head: Option<string>, values: seq<int>)

  /** What `stats.loadAsyncGraph` returns: a `statsGraph` with its parsed JSON, or another kind of graph. */
  datatype LoadedGraph = OtherGraph | StatsGraph(names: seq<(string, string)>, columns: seq<Column>)

  /** `stats.languagesGraph`: an async graph, with what loading its token gave, or another kind of graph. */
  datatype LanguagesGraph = NotAsync | AsyncGraph(loaded: LoadedGraph)

  /** `columns.find(col => col[0] === key)`: the first column labelled with the key. */
  function FindColumn(columns: seq<Column>, key: string): (r: Option<nat>)
    ensures r.Some? ==> r.value < |columns| && columns[r.value].head == Some(key)
    ensures r.Some? ==> forall j :: 0 <= j < r.value ==> columns[j].head != Some(key)
    ensures r.None? ==> forall j :: 0 <= j < |columns| ==> columns[j].head != Some(key)
  {
    if columns == [] then None
    else if columns[0].head == Some(key) then Some(0)
    else match FindColumn(columns[1..], key)
      case None => None
      case Some(j) => Some(j + 1)
  }

  /** `values.reduce((sum, val) => sum + val, 0)`. */
  function Sum(values: seq<int>): int
  {
    if values == [] then 0 else Sum(values[..|values| - 1]) + values[|values| - 1]
  }

  /** The total of a language: the sum of its column after the label, 0 without a column. */
  function ColumnTotal(columns: seq<Column>, key: string): int
  {
    match FindColumn(columns, key)
    case None => 0
    case Some(j) => Sum(columns[j].values)
  }

  /** `Object.entries(names).map(...)`: one entry per series, named by its display name. */
  function LanguageEntries(names: seq<(string, string)>, columns: seq<Column>): seq<LanguageStat>
  {
    seq(|names|, i requires 0 <= i < |names| => LanguageStat(names[i].1, ColumnTotal(columns, names[i].0)))
  }

  /** `sort((a, b) => b.total - a.total)` has run: no entry is followed by a larger total. */
  predicate ByTotalDesc(s: seq<LanguageStat>)
  {
    forall i, j :: 0 <= i < j < |s| ==> s[j].total <= s[i].total
  }

  /** The first `n` entries are in order, largest total first. */
  predicate PrefixByTotalDesc(a: array<LanguageStat>, n: int)
    reads a
    requires 0 <= n <= a.Length
  {
    forall p, q :: 0 <= p < q < n ==> a[q].total <= a[p].total
  }

  /** Exchanges the entry at `k` with its left neighbour. */
  method SwapLeft(a: array<LanguageStat>, k: int)
    requires 0 < k < a.Length
    modifies a
    ensures a[..] == old(a[..])[k - 1 := old(a[k])][k := old(a[k - 1])]
    ensures multiset(a[..]) == multiset(old(a[..]))
  {
    a[k - 1], a[k] := a[k], a[k - 1];
  }

  /** Moves the entry at `i` left past the smaller totals before it, extending the ordered prefix by one. */
  method InsertLeft(a: array<LanguageStat>, i: int)
    requires 0 <= i < a.Length && PrefixByTotalDesc(a, i)
    modifies a
    ensures PrefixByTotalDesc(a, i + 1)
    ensures multiset(a[..]) == multiset(old(a[..]))
  {
    var j := i;
    while j > 0 && a[j - 1].total < a[j].total
      invariant 0 <= j <= i
      invariant forall p, q :: 0 <= p < q <= i && p != j && q != j ==> a[q].total <= a[p].total
      invariant forall q :: j < q <= i ==> a[q].total < a[j].total
      invariant multiset(a[..]) == multiset(old(a[..]))
    {
      SwapLeft(a, j);
      j := j - 1;
    }
  }

  /** Sorts the entries in place, largest total first, by moving each entry left past smaller ones. */
  method SortByTotalDesc(a: array<LanguageStat>)
    modifies a
    ensures ByTotalDesc(a[..])
    ensures multiset(a[..]) == multiset(old(a[..]))
  {
    var i := 0;
    while i < a.Length
      invariant 0 <= i <= a.Length
      invariant PrefixByTotalDesc(a, i)
      invariant multiset(a[..]) == multiset(old(a[..]))
    {
      InsertLeft(a, i);
      i := i + 1;
    }
  }

  /**
   * `extractLanguagesFromStats`: nothing unless the languages graph is async
   * and loads as a `statsGraph`; otherwise one entry per series with its
   * total, largest total first.
   */
  method ExtractLanguagesFromStats(graph: LanguagesGraph) returns (r: seq<LanguageStat>)
    ensures !(graph.AsyncGraph? && graph.loaded.StatsGraph?) ==> r == []
    ensures graph.AsyncGraph? && graph.loaded.StatsGraph? ==>
              multiset(r) == multiset(LanguageEntries(graph.loaded.names, graph.loaded.columns))
              && |r| == |graph.loaded.names|
              && (forall i :: 0 <= i < |graph.loaded.names| ==>
                    LanguageStat(graph.loaded.names[i].1, ColumnTotal(graph.loaded.columns, graph.loaded.names[i].0)) in r)
    ensures ByTotalDesc(r)
  {
    if !graph.AsyncGraph? || !graph.loaded.StatsGraph? {
      return [];
    }
    var entries := LanguageEntries(graph.loaded.names, graph.loaded.columns);
    var a := new LanguageStat[|entries|](i requires 0 <= i < |entries| => entries[i]);
    assert a[..] == entries;
    SortByTotalDesc(a);
    r := a[..];
    assert |multiset(r)| == |multiset(entries)|;
    forall i | 0 <= i < |entries|
      ensures LanguageStat(graph.loaded.names[i].1, ColumnTotal(graph.loaded.columns, graph.loaded.names[i].0)) in r
    {
      assert entries[i] in multiset(entries);
    }
  }

  // ---------------------------------------------------------------- verification and owner records

  const NotAValidAccount: string := "Not a valid account!"
  const NotAChannelMessage: string := "This is not a channel"
  const ServiceAccountNotAdmin: string := "Service account is not an admin in this channel"
  const NoStatsDc: string := "Could not get stats DC for this channel"
  const ChannelNotInDatabase: string := "Channel not found in database"

  /**
   * What the service account learns about a channel: the username resolves to
   * something other than a channel, or to a channel in which the account is
   * or is not an admin, with the channel's title, statistics data centre,
   * follower and views-per-post counts and languages graph. `ProbeFailed`
   * stands for a Telegram call that throws on the way.
   */
  datatype ChannelProbe =
    | ProbeFailed(error: string)
    | NotAChannel
    | ChannelProbed(tgId: int, accessHash: string, isAdmin: bool, title: Option<string>,
                    statsDc: Option<int>, followers: int, viewsPerPost: int, languagesGraph: LanguagesGraph)

  /** `ChannelStatsResult`: a stored channel as the helpers return it. */
  datatype ChannelStats = ChannelStats(
    id: int, title: Option<string>, tgId: int, tgLink: string, accessHash: string,
    subCount: int, avgPostReach: int, languages: seq<LanguageStat>)

  /** The columns an upsert of a verified channel overwrites: not the title, owner, listing or wallet. */
  function Refreshed(c: Channel, s: ChannelStats, now: int): (r: Channel)
    ensures r.id == c.id && r.tgId == c.tgId && r.title == c.title && r.ownerId == c.ownerId
    ensures r.listingInfo == c.listingInfo && r.isPublic == c.isPublic && r.walletAddress == c.walletAddress
    ensures r.createdAt == c.createdAt
    ensures r.accessHash == s.accessHash && r.subCount == Some(s.subCount) && r.avgPostReach == Some(s.avgPostReach)
    ensures r.languages == Some(s.languages) && r.tgLink == s.tgLink && r.updatedAt == now
  {
    c.(accessHash := s.accessHash, subCount := Some(s.subCount), avgPostReach := Some(s.avgPostReach),
       languages := Some(s.languages), tgLink := s.tgLink, updatedAt := now)
  }

  /**
   * `verifyChannelAdmin`: with the session `accountId` (whatever its status),
   * resolves the channel named by `channelInput`, checks that the service
   * account administers it, reads its statistics and upserts the channel row
   * by Telegram id. A new row is owned by `tid`; an existing row keeps its
   * title and owner and has its hash, counts, languages and link refreshed.
   */
  method VerifyChannelAdmin(db: Database, tid: int, accountId: string, channelInput: string,
                            probe: (string, string) -> ChannelProbe, now: int)
    returns (o: Outcome<ChannelStats>)
    requires db.Valid()
    modifies db`channels, db`nextId
    ensures db.Valid()
    ensures o.Threw? ==> db.channels == old(db.channels)
    ensures accountId !in db.sessions ==> o == Threw(ErrorText(NotAValidAccount))
    ensures accountId in db.sessions ==>
              var p := probe(db.sessions[accountId].storageKey, ChannelUsername(channelInput));
              (p.ProbeFailed? ==> o == Threw(p.error))
              && (p.NotAChannel? ==> o == Threw(ErrorText(NotAChannelMessage)))
              && (p.ChannelProbed? && !p.isAdmin ==> o == Threw(ErrorText(ServiceAccountNotAdmin)))
              && (p.ChannelProbed? && p.isAdmin && (p.statsDc.None? || p.statsDc.value == 0) ==> o == Threw(ErrorText(NoStatsDc)))
              && (p.ChannelProbed? && p.isAdmin && p.statsDc.Some? && p.statsDc.value != 0 ==> o.Returned?)
    ensures o.Returned? ==>
              accountId in db.sessions
              && var p := probe(db.sessions[accountId].storageKey, ChannelUsername(channelInput));
              p.ChannelProbed?
              && o.value.tgId == p.tgId && o.value.accessHash == p.accessHash && o.value.title == p.title
              && o.value.tgLink == TgLink(ChannelUsername(channelInput))
              && o.value.subCount == p.followers && o.value.avgPostReach == p.viewsPerPost
              && ByTotalDesc(o.value.languages)
              && (p.languagesGraph.AsyncGraph? && p.languagesGraph.loaded.StatsGraph? ==>
                    multiset(o.value.languages) == multiset(LanguageEntries(p.languagesGraph.loaded.names, p.languagesGraph.loaded.columns)))
              && (!(p.languagesGraph.AsyncGraph? && p.languagesGraph.loaded.StatsGraph?) ==> o.value.languages == [])
    ensures o.Returned? ==>
              (forall k :: k in old(db.channels) && old(db.channels)[k].tgId == o.value.tgId ==>
                 o.value.id == k && db.channels == old(db.channels)[k := Refreshed(old(db.channels)[k], o.value, now)])
              && ((forall k :: k in old(db.channels) ==> old(db.channels)[k].tgId != o.value.tgId) ==>
                    o.value.id !in old(db.channels)
                    && db.channels == old(db.channels)[o.value.id :=
                         Channel(o.value.id, o.value.tgId, o.value.accessHash, o.value.title, Some(tid), o.value.tgLink,
                                 Some(o.value.subCount), Some(o.value.avgPostReach), Some(o.value.languages),
                                 None, None, Some(false), now, now)])
  {
    if accountId !in db.sessions {
      return Threw(ErrorText(NotAValidAccount));
    }
    var username := ChannelUsername(channelInput);
    var p := probe(db.sessions[accountId].storageKey, username);
    if p.ProbeFailed? {
      return Threw(p.error);
    }
    if p.NotAChannel? {
      return Threw(ErrorText(NotAChannelMessage));
    }
    if !p.isAdmin {
      return Threw(ErrorText(ServiceAccountNotAdmin));
    }
    if p.statsDc.None? || p.statsDc.value == 0 {
      return Threw(ErrorText(NoStatsDc));
    }
    var languages := ExtractLanguagesFromStats(p.languagesGraph);
    var stats := ChannelStats(0, p.title, p.tgId, TgLink(username), p.accessHash, p.followers, p.viewsPerPost, languages);
    var existing := db.FindChannelByTgId(p.tgId);
    if existing.Some? {
      var k: int := existing.value;
      assert db.KeysValid() && db.ChannelsKeyed();
      stats := stats.(id := k);
      db.UpdateChannel(Refreshed(db.channels[k], stats, now));
    } else {
      var id := db.NextId();
      stats := stats.(id := id);
      db.InsertChannel(Channel(id, p.tgId, p.accessHash, p.title, Some(tid), stats.tgLink,
                               Some(stats.subCount), Some(stats.avgPostReach), Some(languages),
                               None, None, Some(false), now, now));
    }
    o := Returned(stats);
  }

  /**
   * `syncChannelAdmin`: records the verifying user as an `owner` admin of the
   * stored channel with that Telegram id, unless they already hold a row for
   * it (in any role). An unknown channel throws.
   */
  method SyncChannelAdmin(db: Database, tgId: int, tgUserId: int, now: int) returns (o: Outcome<()>)
    requires db.Valid()
    modifies db`channelAdmins, db`nextId
    ensures db.Valid()
    ensures (forall k :: k in db.channels ==> db.channels[k].tgId != tgId) ==>
              o == Threw(ErrorText(ChannelNotInDatabase)) && db.channelAdmins == old(db.channelAdmins)
    ensures forall c :: c in db.channels && db.channels[c].tgId == tgId ==>
              o == Returned(())
              && (old(db.IsAdminOf(c, tgUserId)) ==> db.channelAdmins == old(db.channelAdmins))
              && (!old(db.IsAdminOf(c, tgUserId)) ==>
                    exists id :: id !in old(db.channelAdmins)
                                 && db.channelAdmins == old(db.channelAdmins)[id := ChannelAdmin(id, c, tgUserId, Owner, now, Telegram)])
  {
    var channel := db.FindChannelByTgId(tgId);
    if channel.None? {
      return Threw(ErrorText(ChannelNotInDatabase));
    }
    var c: int := channel.value;
    var existing := db.FindAdmin(c, tgUserId);
    if existing.Some? {
      return Returned(());
    }
    var id := db.NextId();
    db.InsertChannelAdmin(NewChannelAdmin(id, c, tgUserId, now));
    assert c in db.channels && db.channels[c].tgId == tgId;
    o := Returned(());
  }

  // ---------------------------------------------------------------- admins invited by an owner

  const InvitedNotAdmin: string := "This account is not an admin in this channel!"

  /**
   * What Telegram says about an invited admin: the channel does not resolve to
   * a channel, or the user (with the id the bot reports) is or is not an admin
   * or the creator of it. `AdminProbeFailed` stands for a call that throws.
   */
  datatype AdminProbe =
    | AdminProbeFailed(error: string)
    | AdminNotAChannel
    | AdminParticipant(userId: int, isAdmin: bool)

  /** The row an owner's invitation inserts. */
  function InviteRow(id: int, channelId: int, userId: int, now: int): (a: ChannelAdmin)
    ensures a.role == Admin && a.source == Invite && a.channelId == channelId && a.tgUserId == userId
  {
    ChannelAdmin(id, channelId, userId, Admin, now, Invite)
  }

  /** `admins` holds a row for the user and the channel. */
  predicate HoldsRow(admins: map<int, ChannelAdmin>, channelId: int, userId: int)
  {
    exists k :: k in admins && admins[k].channelId == channelId && admins[k].tgUserId == userId
  }

  /**
   * A user holds at most one row per channel. The schema does not declare
   * this, and the invitation as written does not keep it.
   */
  ghost predicate OneRowPerPair(admins: map<int, ChannelAdmin>)
  {
    forall a, b ::
      (a in admins && b in admins && admins[a].channelId == admins[b].channelId
       && admins[a].tgUserId == admins[b].tgUserId) ==> a == b
  }

  /**
   * The insert of `syncNewAdminByOwner` as written: `insert ... on conflict do
   * nothing returning`. `channel_admins` has no unique key besides its
   * identity column, so no insert ever conflicts: the row is always added and
   * always returned, even for a user who already has a row for the channel.
   */
  function InviteInsertAsWritten(admins: map<int, ChannelAdmin>, id: int, channelId: int, userId: int, now: int)
    : (r: (map<int, ChannelAdmin>, Option<ChannelAdmin>))
    requires id !in admins
    ensures r.1.Some? && r.1.value == InviteRow(id, channelId, userId, now)
    ensures r.0 == admins[id := r.1.value] && |r.0| == |admins| + 1
  {
    var row := InviteRow(id, channelId, userId, now);
    (admins[id := row], Some(row))
  }

  /**
   * As written, inviting a user who is already an admin of the channel adds a
   * second row for the same user and channel, and returns it, so the caller's
   * "Admin already exists" answer is never given and the table loses
   * `OneRowPerPair`.
   */
  lemma InviteAsWrittenDuplicates(admins: map<int, ChannelAdmin>, id: int, channelId: int, userId: int, now: int)
    requires id !in admins && HoldsRow(admins, channelId, userId)
    ensures var r := InviteInsertAsWritten(admins, id, channelId, userId, now);
            r.1.Some? && !OneRowPerPair(r.0)
  {
    var k :| k in admins && admins[k].channelId == channelId && admins[k].tgUserId == userId;
    var r := InviteInsertAsWritten(admins, id, channelId, userId, now);
    assert k in r.0 && id in r.0 && k != id && r.0[k].channelId == r.0[id].channelId && r.0[k].tgUserId == r.0[id].tgUserId;
  }

  /**
   * The insert of `syncNewAdminByOwner` as intended: the row is added only for
   * a user without a row for the channel, and `None` (the caller's "already
   * exists") is returned otherwise.
   */
  function InviteInsertIntended(admins: map<int, ChannelAdmin>, id: int, channelId: int, userId: int, now: int)
    : (r: (map<int, ChannelAdmin>, Option<ChannelAdmin>))
    requires id !in admins
  {
    if HoldsRow(admins, channelId, userId) then (admins, None)
    else InviteInsertAsWritten(admins, id, channelId, userId, now)
  }

  /** The intended insert keeps one row per user and channel. */
  lemma InviteIntendedKeepsOneRow(admins: map<int, ChannelAdmin>, id: int, channelId: int, userId: int, now: int)
    requires id !in admins && OneRowPerPair(admins)
    ensures var r := InviteInsertIntended(admins, id, channelId, userId, now);
            OneRowPerPair(r.0) && (r.1.None? <==> HoldsRow(admins, channelId, userId))
            && (r.1.Some? ==> r.1.value == InviteRow(id, channelId, userId, now) && r.0 == admins[id := r.1.value])
            && (r.1.None? ==> r.0 == admins)
  {
    var r := InviteInsertIntended(admins, id, channelId, userId, now);
    if r.1.Some? {
      forall a, b | a in r.0 && b in r.0 && r.0[a].channelId == r.0[b].channelId && r.0[a].tgUserId == r.0[b].tgUserId
        ensures a == b
      {
      }
    }
  }

  /**
   * As intended, once an invitation has added its row, a second invitation of
   * the same user to the same channel is refused and changes nothing.
   */
  lemma InviteTwiceRefused(admins: map<int, ChannelAdmin>, id1: int, id2: int, channelId: int, userId: int,
                           now1: int, now2: int)
    requires id1 !in admins && id2 !in admins && id1 != id2
    ensures var first := InviteInsertIntended(admins, id1, channelId, userId, now1);
            first.1.Some? ==>
              id2 !in first.0 && InviteInsertIntended(first.0, id2, channelId, userId, now2) == (first.0, None)
  {
    var first := InviteInsertIntended(admins, id1, channelId, userId, now1);
    if first.1.Some? {
      assert id1 in first.0 && first.0[id1].channelId == channelId && first.0[id1].tgUserId == userId;
    }
  }

  /** The intended insert on the database: a fresh identity is drawn only when a row is added. */
  method InsertInvitedAdmin(db: Database, channelId: int, userId: int, now: int) returns (row: Option<ChannelAdmin>)
    requires db.Valid()
    modifies db`channelAdmins, db`nextId
    ensures db.Valid()
    ensures old(db.nextId) !in old(db.channelAdmins)
    ensures (db.channelAdmins, row) == InviteInsertIntended(old(db.channelAdmins), old(db.nextId), channelId, userId, now)
  {
    assert db.KeysValid() && db.AdminsKeyed();
    var existing := db.FindAdmin(channelId, userId);
    if existing.Some? {
      return None;
    }
    var id := db.NextId();
    var r := InviteRow(id, channelId, userId, now);
    db.InsertChannelAdmin(r);
    row := Some(r);
  }

  /**
   * The checks `syncNewAdminByOwner` makes through some active session before
   * it writes: the invited user must administer the channel behind
   * `channelLink`; their Telegram id is returned. Which active session asks
   * does not change Telegram's answer.
   */
  method InvitedUserId(db: Database, adminUsername: string, channelLink: string, probe: (string, string) -> AdminProbe)
    returns (o: Outcome<int>)
    ensures !db.HasActiveSession() ==> o == Threw(ErrorText(NotAValidAccount))
    ensures db.HasActiveSession() ==>
              var p := probe(ChannelUsername(channelLink), adminUsername);
              (p.AdminProbeFailed? ==> o == Threw(p.error))
              && (p.AdminNotAChannel? ==> o == Threw(ErrorText(NotAChannelMessage)))
              && (p.AdminParticipant? && !p.isAdmin ==> o == Threw(ErrorText(InvitedNotAdmin)))
              && (p.AdminParticipant? && p.isAdmin ==> o == Returned(p.userId))
  {
    var session := db.FindActiveSession();
    if session.None? {
      return Threw(ErrorText(NotAValidAccount));
    }
    var p := probe(ChannelUsername(channelLink), adminUsername);
    if p.AdminProbeFailed? {
      return Threw(p.error);
    }
    if p.AdminNotAChannel? {
      return Threw(ErrorText(NotAChannelMessage));
    }
    if !p.isAdmin {
      return Threw(ErrorText(InvitedNotAdmin));
    }
    o := Returned(p.userId);
  }

  /**
   * `syncNewAdminByOwner` as written: after the checks of `InvitedUserId`,
   * the invited user gets a new `admin` row from an `invite`, which is
   * returned, whether or not they already hold a row for the channel.
   */
  method SyncNewAdminByOwner(db: Database, adminUsername: string, channelLink: string, channelId: int,
                             probe: (string, string) -> AdminProbe, now: int)
    returns (o: Outcome<Option<ChannelAdmin>>)
    requires db.Valid()
    modifies db`channelAdmins, db`nextId
    ensures db.Valid()
    ensures o.Threw? ==> db.channelAdmins == old(db.channelAdmins)
    ensures !db.HasActiveSession() ==> o == Threw(ErrorText(NotAValidAccount))
    ensures db.HasActiveSession() ==>
              var p := probe(ChannelUsername(channelLink), adminUsername);
              (p.AdminProbeFailed? ==> o == Threw(p.error))
              && (p.AdminNotAChannel? ==> o == Threw(ErrorText(NotAChannelMessage)))
              && (p.AdminParticipant? && !p.isAdmin ==> o == Threw(ErrorText(InvitedNotAdmin)))
              && (p.AdminParticipant? && p.isAdmin ==>
                    o.Returned? && o.value.Some?
                    && o.value.value == InviteRow(o.value.value.id, channelId, p.userId, now)
                    && o.value.value.id !in old(db.channelAdmins)
                    && db.channelAdmins == old(db.channelAdmins)[o.value.value.id := o.value.value])
  {
    var user := InvitedUserId(db, adminUsername, channelLink, probe);
    if user.Threw? {
      return Threw(user.error);
    }
    var id := db.NextId();
    var r := InviteInsertAsWritten(db.channelAdmins, id, channelId, user.value, now);
    db.InsertChannelAdmin(r.1.value);
    o := Returned(r.1);
  }

  /**
   * `syncNewAdminByOwner` as intended: the same checks, then the intended
   * insert, so a user who already holds a row for the channel gets `None`
   * and nothing is written.
   */
  method SyncNewAdminByOwnerIntended(db: Database, adminUsername: string, channelLink: string, channelId: int,
                                     probe: (string, string) -> AdminProbe, now: int)
    returns (o: Outcome<Option<ChannelAdmin>>)
    requires db.Valid()
    modifies db`channelAdmins, db`nextId
    ensures db.Valid()
    ensures o.Threw? ==> db.channelAdmins == old(db.channelAdmins)
    ensures !db.HasActiveSession() ==> o == Threw(ErrorText(NotAValidAccount))
    ensures db.HasActiveSession() ==>
              var p := probe(ChannelUsername(channelLink), adminUsername);
              (p.AdminProbeFailed? ==> o == Threw(p.error))
              && (p.AdminNotAChannel? ==> o == Threw(ErrorText(NotAChannelMessage)))
              && (p.AdminParticipant? && !p.isAdmin ==> o == Threw(ErrorText(InvitedNotAdmin)))
              && (p.AdminParticipant? && p.isAdmin ==>
                    o.Returned?
                    && (db.channelAdmins, o.value)
                       == InviteInsertIntended(old(db.channelAdmins), old(db.nextId), channelId, p.userId, now))
  {
    var user := InvitedUserId(db, adminUsername, channelLink, probe);
    if user.Threw? {
      return Threw(user.error);
    }
    var row := InsertInvitedAdmin(db, channelId, user.value, now);
    o := Returned(row);
  }

  // ---------------------------------------------------------------- channels a user can offer

  const NotAdminOfAny: string := "User is not an admin or owner of any channel"
  const NoApplicableChannel: string := "No applicable channel for this reqeust!"

  /** `sub_count >= min_subscribers` in SQL: a channel without a count never passes a set minimum. */
  predicate SubscribersOk(c: Channel, req: Option<AdRequest>)
  {
    req.None? || req.value.minSubscribers.None?
    || (c.subCount.Some? && c.subCount.value >= req.value.minSubscribers.value)
  }

  /** With a non-empty request language, the channel's language names must include it. */
  predicate LanguageOk(c: Channel, req: Option<AdRequest>)
  {
    req.None? || req.value.language.None? || req.value.language.value == ""
    || (c.languages.Some? && exists i :: 0 <= i < |c.languages.value| && c.languages.value[i].name == req.value.language.value)
  }

  /**
   * JavaScript's `ToNumber` as `>` and `<=` apply it to a parsed JSON value,
   * with `None` for NaN: a string is read by `Number`'s grammar, a boolean
   * is 0 or 1, null is 0, a bigint and a date compare by their value, an
   * array by the text `join(",")` gives it, and an object's text
   * `[object Object]` is NaN.
   */
  function ToNumber(v: JsValue): (r: Option<real>)
    ensures v.Num? ==> r == Some(v.n)
    ensures v.Str? ==> r == Zod.NumberOfText(v.s)
    ensures v.Bool? ==> r == Some(if v.b then 1.0 else 0.0)
    ensures v.Null? ==> r == Some(0.0)
    ensures v.Undefined? || v.Obj? ==> r.None?
    ensures v.Arr? ==> r == JoinedNumber(v)
  {
    match v
    case Undefined => None
    case Null => Some(0.0)
    case Bool(b) => Some(if b then 1.0 else 0.0)
    case Num(n) => Some(n)
    case BigInt(i) => Some(i as real)
    case Str(s) => Zod.NumberOfText(s)
    case Date(t) => Some(t as real)
    case Arr(_) => JoinedNumber(v)
    case Obj(_) => None
  }

  /**
   * `Number` of the text an array writes for `x` when it joins its elements:
   * undefined and null write nothing, a number, bigint or string its own
   * text, an array its elements joined by commas (so two or more elements
   * give a comma, which is NaN), and a boolean, a date or an object a word
   * that is NaN.
   */
  function JoinedNumber(x: JsValue): (r: Option<real>)
    ensures x.Arr? && |x.items| == 0 ==> r == Some(0.0)
    ensures x.Arr? && |x.items| >= 2 ==> r.None?
    ensures x.Bool? || x.Date? || x.Obj? ==> r.None?
  {
    match x
    case Undefined => Some(0.0)
    case Null => Some(0.0)
    case Num(n) => Some(n)
    case BigInt(i) => Some(i as real)
    case Str(s) => Zod.NumberOfText(s)
    case Arr(items) =>
      if |items| == 0 then Some(0.0)
      else if |items| == 1 then JoinedNumber(items[0])
      else None
    case _ => None
  }

  /**
   * An array of one number, bigint, string or null compares as that value
   * alone, while an array of one boolean is NaN although the boolean itself
   * is not, and an array of one undefined is 0 although undefined is NaN.
   */
  lemma SingletonArrayNumber(x: JsValue)
    ensures x.Num? || x.BigInt? || x.Str? || x.Null? ==> ToNumber(Arr([x])) == ToNumber(x)
    ensures x.Bool? ==> ToNumber(Arr([x])).None? && ToNumber(x).Some?
    ensures x.Undefined? ==> ToNumber(Arr([x])) == Some(0.0) && ToNumber(x).None?
  {
    assert JoinedNumber(Arr([x])) == JoinedNumber(x) by {
      assert |Arr([x]).items| == 1 && Arr([x]).items[0] == x;
    }
  }

  /** Wrapping an array in another one-element array does not change its number. */
  lemma {:induction false} NestedArrayNumber(x: JsValue, depth: nat)
    requires x.Arr?
    ensures ToNumber(Nest(x, depth)) == ToNumber(x)
  {
    if depth > 0 {
      NestedArrayNumber(x, depth - 1);
      assert Nest(x, depth) == Arr([Nest(x, depth - 1)]);
    }
  }

  /** `x` inside `depth` one-element arrays. */
  function Nest(x: JsValue, depth: nat): (r: JsValue)
    ensures x.Arr? ==> r.Arr?
  {
    if depth == 0 then x else Arr([Nest(x, depth - 1)])
  }

  /** The listing's `postPrice` as the comparisons read it, `None` for NaN. */
  function PostPrice(listing: Fields): (p: Option<real>)
    ensures Get(listing, "postPrice").Num? ==> p == Some(Get(listing, "postPrice").n)
    ensures Get(listing, "postPrice").Undefined? ==> p.None?
  {
    ToNumber(Get(listing, "postPrice"))
  }

  /** A price stored as decimal digit text reads as their value, as a number would. */
  lemma DigitTextPrice(listing: Fields, s: string)
    requires Get(listing, "postPrice") == Str(s) && s != [] && Zod.AllDigits(s)
    ensures PostPrice(listing) == Some(DigitsValue(s) as real)
  {
    Zod.NumberOfDigits(s);
  }

  /** With a request, the channel needs a listing whose post price is positive and within the budget. */
  predicate BudgetOk(c: Channel, req: Option<AdRequest>)
  {
    req.None?
    || (c.listingInfo.Some? && PostPrice(c.listingInfo.value).Some?
        && 0.0 < PostPrice(c.listingInfo.value).value <= req.value.budget as real)
  }

  /**
   * The budget filter lets through a listing whose price is digit text or
   * `true` exactly as it would the number, and refuses `false`.
   */
  lemma CoercedPriceBudget(c: Channel, req: AdRequest)
    requires c.listingInfo.Some?
    ensures forall s :: Get(c.listingInfo.value, "postPrice") == Str(s) && s != [] && Zod.AllDigits(s) ==>
              (BudgetOk(c, Some(req)) <==> 1 <= DigitsValue(s) <= req.budget)
    ensures Get(c.listingInfo.value, "postPrice") == Bool(true) ==> (BudgetOk(c, Some(req)) <==> 1 <= req.budget)
    ensures Get(c.listingInfo.value, "postPrice") == Bool(false) ==> !BudgetOk(c, Some(req))
  {
    forall s | Get(c.listingInfo.value, "postPrice") == Str(s) && s != [] && Zod.AllDigits(s)
      ensures BudgetOk(c, Some(req)) <==> 1 <= DigitsValue(s) <= req.budget
    {
      DigitTextPrice(c.listingInfo.value, s);
    }
  }

  /** The channel as `getChannelsByUser` returns it: no access hash, and defaults for missing columns. */
  function StatsOf(c: Channel): (s: ChannelStats)
    ensures s.id == c.id && s.tgId == c.tgId && s.tgLink == c.tgLink && s.accessHash == ""
    ensures s.title == Some(c.title.OrElse("Unknown"))
    ensures s.subCount == c.subCount.OrElse(0) && s.avgPostReach == c.avgPostReach.OrElse(0)
    ensures s.languages == c.languages.OrElse([])
  {
    ChannelStats(c.id, Some(c.title.OrElse("Unknown")), c.tgId, c.tgLink, "",
                 c.subCount.OrElse(0), c.avgPostReach.OrElse(0), c.languages.OrElse([]))
  }

  /** The request's conditions a channel of `tid` must meet to be offered. */
  ghost predicate Offerable(db: Database, c: int, tid: int, req: Option<AdRequest>)
    reads db
  {
    c in db.channels && db.IsAdminOf(c, tid) && SubscribersOk(db.channels[c], req)
    && LanguageOk(db.channels[c], req) && BudgetOk(db.channels[c], req)
  }

  /** Row `k` of `channel_admins` records `tid` as an admin of channel `c`. */
  ghost predicate TidRowFor(db: Database, k: int, c: int, tid: int)
    reads db
  {
    k in db.channelAdmins && db.channelAdmins[k].channelId == c && db.channelAdmins[k].tgUserId == tid
  }

  /** The admin rows of `tid` whose channel has enough subscribers: the rows of the inner join. */
  ghost function JoinedAdminRows(db: Database, tid: int, req: Option<AdRequest>): set<int>
    reads db
  {
    set k | k in db.channelAdmins && db.channelAdmins[k].tgUserId == tid
            && db.channelAdmins[k].channelId in db.channels
            && SubscribersOk(db.channels[db.channelAdmins[k].channelId], req)
  }

  /** `rows` holds exactly the administered channels with enough subscribers (the joined query's result). */
  ghost predicate AdministeredRows(db: Database, tid: int, req: Option<AdRequest>, rows: seq<Channel>)
    reads db
  {
    (forall i :: 0 <= i < |rows| ==>
       rows[i].id in db.channels && rows[i] == db.channels[rows[i].id]
       && db.IsAdminOf(rows[i].id, tid) && SubscribersOk(rows[i], req))
    && (forall c :: c in db.channels && db.IsAdminOf(c, tid) && SubscribersOk(db.channels[c], req) ==>
          db.channels[c] in rows)
  }

  /**
   * The joined query of `getChannelsByUser`: one row per admin row of `tid`
   * whose channel has enough subscribers (`keys` names those admin rows), so
   * a channel the user holds two rows for is listed twice. The rows come in
   * the order the database returns them, which the model fixes by admin row.
   */
  method AdministeredChannels(db: Database, tid: int, req: Option<AdRequest>)
    returns (rows: seq<Channel>, ghost keys: seq<int>)
    requires db.Valid()
    ensures AdministeredRows(db, tid, req, rows)
    ensures |keys| == |rows| && Distinct(keys)
    ensures forall i :: 0 <= i < |keys| ==>
              keys[i] in JoinedAdminRows(db, tid, req) && rows[i] == db.channels[db.channelAdmins[keys[i]].channelId]
    ensures forall k :: k in JoinedAdminRows(db, tid, req) ==> k in keys
    ensures OneRowPerPair(db.channelAdmins) ==> Distinct(rows)
  {
    var chs := db.channels;
    var admins := db.channelAdmins;
    var joined := set k | k in admins && admins[k].tgUserId == tid && admins[k].channelId in chs
                          && SubscribersOk(chs[admins[k].channelId], req);
    var ids := ListDesc(joined, (k: int) => k);
    SetListing(ids, joined);
    rows := seq(|ids|, i requires 0 <= i < |ids| && ids[i] in admins && admins[ids[i]].channelId in chs
                        => chs[admins[ids[i]].channelId]);
    keys := ids;
    JoinedListing(db, tid, req, keys, rows);
    JoinedDistinct(db, keys, rows);
  }

  /** Listing the joined admin rows' channels lists exactly the administered channels with enough subscribers. */
  lemma JoinedListing(db: Database, tid: int, req: Option<AdRequest>, keys: seq<int>, rows: seq<Channel>)
    requires db.Valid()
    requires forall i :: 0 <= i < |keys| ==> keys[i] in JoinedAdminRows(db, tid, req)
    requires forall k :: k in JoinedAdminRows(db, tid, req) ==> k in keys
    requires |rows| == |keys|
    requires forall i :: 0 <= i < |keys| ==> rows[i] == db.channels[db.channelAdmins[keys[i]].channelId]
    ensures AdministeredRows(db, tid, req, rows)
  {
    assert db.KeysValid() && db.ChannelsKeyed();
    forall i | 0 <= i < |rows|
      ensures rows[i].id in db.channels && rows[i] == db.channels[rows[i].id]
              && db.IsAdminOf(rows[i].id, tid) && SubscribersOk(rows[i], req)
    {
      assert keys[i] in JoinedAdminRows(db, tid, req);
      assert TidRowFor(db, keys[i], rows[i].id, tid);
    }
    forall c | c in db.channels && db.IsAdminOf(c, tid) && SubscribersOk(db.channels[c], req)
      ensures db.channels[c] in rows
    {
      var k :| k in db.channelAdmins && db.channelAdmins[k].channelId == c && db.channelAdmins[k].tgUserId == tid;
      assert k in JoinedAdminRows(db, tid, req);
      var m :| 0 <= m < |keys| && keys[m] == k;
      assert rows[m] == db.channels[c];
    }
  }

  /** With one admin row per user and channel, distinct admin rows name distinct channels. */
  lemma JoinedDistinct(db: Database, keys: seq<int>, rows: seq<Channel>)
    requires db.Valid()
    requires Distinct(keys) && |rows| == |keys|
    requires forall i :: 0 <= i < |keys| ==>
               keys[i] in db.channelAdmins && db.channelAdmins[keys[i]].channelId in db.channels
               && rows[i] == db.channels[db.channelAdmins[keys[i]].channelId]
    requires forall i, j :: 0 <= i < |keys| && 0 <= j < |keys| ==>
               db.channelAdmins[keys[i]].tgUserId == db.channelAdmins[keys[j]].tgUserId
    ensures OneRowPerPair(db.channelAdmins) ==> Distinct(rows)
  {
    assert db.KeysValid() && db.ChannelsKeyed();
    if OneRowPerPair(db.channelAdmins) {
      forall i, j | 0 <= i < j < |rows| ensures rows[i] != rows[j] {
        assert keys[i] != keys[j];
        assert rows[i].id == db.channelAdmins[keys[i]].channelId && rows[j].id == db.channelAdmins[keys[j]].channelId;
      }
    }
  }

  /**
   * The language filter, then the budget filter, over the administered
   * channels: each row passing both is kept as often as it occurs, in order.
   */
  function Serving(rows: seq<Channel>, req: Option<AdRequest>): (r: seq<Channel>)
    ensures forall x :: multiset(r)[x] == if LanguageOk(x, req) && BudgetOk(x, req) then multiset(rows)[x] else 0
    ensures forall x :: x in r <==> x in rows && LanguageOk(x, req) && BudgetOk(x, req)
    ensures Subsequence(r, Filter(rows, (c: Channel) => LanguageOk(c, req)))
    ensures Distinct(rows) ==> Distinct(r)
  {
    var byLanguage := Filter(rows, (c: Channel) => LanguageOk(c, req));
    FilterCount(rows, (c: Channel) => LanguageOk(c, req));
    FilterCount(byLanguage, (c: Channel) => BudgetOk(c, req));
    assert Distinct(rows) ==> Distinct(Filter(byLanguage, (c: Channel) => BudgetOk(c, req))) by {
      if Distinct(rows) {
        FilterDistinct(rows, (c: Channel) => LanguageOk(c, req));
        FilterDistinct(byLanguage, (c: Channel) => BudgetOk(c, req));
      }
    }
    Filter(byLanguage, (c: Channel) => BudgetOk(c, req))
  }

  /** The channels' `ChannelStats`, in order. */
  function StatsList(s: seq<Channel>): (out: seq<ChannelStats>)
    ensures |out| == |s| && forall i :: 0 <= i < |s| ==> out[i] == StatsOf(s[i])
  {
    seq(|s|, i requires 0 <= i < |s| => StatsOf(s[i]))
  }

  /**
   * The administered channels that pass both filters, as `getChannelsByUser`
   * returns them: a channel listed twice in `rows` is returned twice.
   */
  method OfferedStats(db: Database, tid: int, req: Option<AdRequest>, rows: seq<Channel>) returns (out: seq<ChannelStats>)
    requires db.Valid() && AdministeredRows(db, tid, req, rows)
    ensures forall i :: 0 <= i < |out| ==> Offerable(db, out[i].id, tid, req) && out[i] == StatsOf(db.channels[out[i].id])
    ensures forall c :: Offerable(db, c, tid, req) ==> exists i :: 0 <= i < |out| && out[i].id == c
    ensures forall c :: Offerable(db, c, tid, req) && multiset(rows)[db.channels[c]] >= 2 ==>
              exists i, j :: 0 <= i < j < |out| && out[i].id == c && out[j].id == c
    ensures Distinct(rows) ==> forall i, j :: 0 <= i < j < |out| ==> out[i].id != out[j].id
  {
    var served := Serving(rows, req);
    out := StatsList(served);
    ServedRows(db, tid, req, rows, served);
    OfferedEntries(db, tid, req, served, out);
    OfferedRepeats(db, tid, req, rows, served, out);
    OfferedDistinct(db, rows, served, out);
  }

  /** The rows that pass both filters are the offerable channels' rows, each as often as in `rows`. */
  lemma ServedRows(db: Database, tid: int, req: Option<AdRequest>, rows: seq<Channel>, served: seq<Channel>)
    requires db.Valid() && AdministeredRows(db, tid, req, rows)
    requires served == Serving(rows, req)
    ensures forall i :: 0 <= i < |served| ==>
              Offerable(db, served[i].id, tid, req) && served[i] == db.channels[served[i].id]
    ensures forall c :: Offerable(db, c, tid, req) ==> db.channels[c] in served
    ensures forall c :: Offerable(db, c, tid, req) ==> multiset(served)[db.channels[c]] == multiset(rows)[db.channels[c]]
    ensures Distinct(rows) ==> Distinct(served)
  {
    forall i | 0 <= i < |served|
      ensures Offerable(db, served[i].id, tid, req) && served[i] == db.channels[served[i].id]
    {
      assert served[i] in served;
      var m :| 0 <= m < |rows| && rows[m] == served[i];
    }
  }

  /** Every entry of the list is an offerable channel's stats, and every offerable channel has one. */
  lemma OfferedEntries(db: Database, tid: int, req: Option<AdRequest>, served: seq<Channel>, out: seq<ChannelStats>)
    requires db.Valid()
    requires forall i :: 0 <= i < |served| ==>
               Offerable(db, served[i].id, tid, req) && served[i] == db.channels[served[i].id]
    requires forall c :: Offerable(db, c, tid, req) ==> db.channels[c] in served
    requires out == StatsList(served)
    ensures forall i :: 0 <= i < |out| ==> Offerable(db, out[i].id, tid, req) && out[i] == StatsOf(db.channels[out[i].id])
    ensures forall c :: Offerable(db, c, tid, req) ==> exists i :: 0 <= i < |out| && out[i].id == c
  {
    forall c | Offerable(db, c, tid, req) ensures exists i :: 0 <= i < |out| && out[i].id == c {
      var i :| 0 <= i < |served| && served[i] == db.channels[c];
      assert db.channels[c].id == c by {
        assert db.KeysValid() && db.ChannelsKeyed();
      }
      assert out[i] == StatsOf(served[i]);
    }
  }

  /** A channel listed twice in `rows` has two entries. */
  lemma OfferedRepeats(db: Database, tid: int, req: Option<AdRequest>, rows: seq<Channel>, served: seq<Channel>,
                       out: seq<ChannelStats>)
    requires db.Valid()
    requires forall c :: Offerable(db, c, tid, req) ==> multiset(served)[db.channels[c]] == multiset(rows)[db.channels[c]]
    requires forall i :: 0 <= i < |served| ==> Offerable(db, served[i].id, tid, req) && served[i] == db.channels[served[i].id]
    requires out == StatsList(served)
    ensures forall c :: Offerable(db, c, tid, req) && multiset(rows)[db.channels[c]] >= 2 ==>
              exists i, j :: 0 <= i < j < |out| && out[i].id == c && out[j].id == c
  {
    forall c | Offerable(db, c, tid, req) && multiset(rows)[db.channels[c]] >= 2
      ensures exists i, j :: 0 <= i < j < |out| && out[i].id == c && out[j].id == c
    {
      var row := db.channels[c];
      assert row.id == c by {
        assert db.KeysValid() && db.ChannelsKeyed();
      }
      TwoPositions(served, row);
      var i, j :| 0 <= i < j < |served| && served[i] == row && served[j] == row;
      assert out[i] == StatsOf(row) && out[j] == StatsOf(row);
    }
  }

  /** Distinct rows give distinct entries. */
  lemma OfferedDistinct(db: Database, rows: seq<Channel>, served: seq<Channel>, out: seq<ChannelStats>)
    requires Distinct(rows) ==> Distinct(served)
    requires forall i :: 0 <= i < |served| ==> served[i].id in db.channels && served[i] == db.channels[served[i].id]
    requires out == StatsList(served)
    ensures Distinct(rows) ==> forall i, j :: 0 <= i < j < |out| ==> out[i].id != out[j].id
  {
    if Distinct(rows) {
      forall i, j | 0 <= i < j < |out| ensures out[i].id != out[j].id {
        assert served[i] != served[j];
      }
    }
  }

  /** A user holding two admin rows for a channel has the channel counted twice in the joined rows. */
  lemma TwoRowsCounted(db: Database, tid: int, req: Option<AdRequest>, keys: seq<int>, rows: seq<Channel>)
    requires db.Valid()
    requires |keys| == |rows|
    requires forall i :: 0 <= i < |keys| ==>
               keys[i] in JoinedAdminRows(db, tid, req) && rows[i] == db.channels[db.channelAdmins[keys[i]].channelId]
    requires forall k :: k in JoinedAdminRows(db, tid, req) ==> k in keys
    ensures forall c, a, b :: Offerable(db, c, tid, req) && a != b && TidRowFor(db, a, c, tid) && TidRowFor(db, b, c, tid) ==>
              multiset(rows)[db.channels[c]] >= 2
  {
    forall c, a, b | Offerable(db, c, tid, req) && a != b && TidRowFor(db, a, c, tid) && TidRowFor(db, b, c, tid)
      ensures multiset(rows)[db.channels[c]] >= 2
    {
      assert a in JoinedAdminRows(db, tid, req) && b in JoinedAdminRows(db, tid, req);
      var i :| 0 <= i < |keys| && keys[i] == a;
      var j :| 0 <= j < |keys| && keys[j] == b;
      if i < j {
        RepeatedCount(rows, i, j);
      } else {
        RepeatedCount(rows, j, i);
      }
    }
  }

  /**
   * `getChannelsByUser(tid, request)`: the channels `tid` administers that can
   * serve the ad request. An unknown request gives none; no administered
   * channel with enough subscribers throws; the language and budget filters
   * that follow may leave the list empty without throwing. A channel comes
   * once per admin row the user holds for it.
   */
  method GetChannelsByUser(db: Database, tid: int, request: Option<int>) returns (o: Outcome<seq<ChannelStats>>)
    requires db.Valid()
    ensures request.Some? && request.value !in db.adRequests ==> o == Returned([])
    ensures request.None? || request.value in db.adRequests ==>
              var req := if request.Some? then Some(db.adRequests[request.value]) else None;
              (o.Threw? <==> !exists c :: c in db.channels && db.IsAdminOf(c, tid) && SubscribersOk(db.channels[c], req))
              && (o.Threw? ==> o.error == ErrorText(if request.Some? then NoApplicableChannel else NotAdminOfAny))
              && (o.Returned? ==>
                    (forall i :: 0 <= i < |o.value| ==>
                       Offerable(db, o.value[i].id, tid, req) && o.value[i] == StatsOf(db.channels[o.value[i].id]))
                    && (forall c :: Offerable(db, c, tid, req) ==> exists i :: 0 <= i < |o.value| && o.value[i].id == c)
                    && (forall c, a, b :: Offerable(db, c, tid, req) && a != b && TidRowFor(db, a, c, tid) && TidRowFor(db, b, c, tid) ==>
                          exists i, j :: 0 <= i < j < |o.value| && o.value[i].id == c && o.value[j].id == c)
                    && (OneRowPerPair(db.channelAdmins) ==>
                          forall i, j :: 0 <= i < j < |o.value| ==> o.value[i].id != o.value[j].id))
  {
    var req: Option<AdRequest> := None;
    if request.Some? {
      if request.value !in db.adRequests {
        return Returned([]);
      }
      req := Some(db.adRequests[request.value]);
    }
    var rows, keys := AdministeredChannels(db, tid, req);
    if rows == [] {
      return Threw(ErrorText(if request.Some? then NoApplicableChannel else NotAdminOfAny));
    }
    assert rows[0] in rows;
    TwoRowsCounted(db, tid, req, keys, rows);
    var out := OfferedStats(db, tid, req, rows);
    o := Returned(out);
  }

  // ---------------------------------------------------------------- weekly statistics

  /** The day names `getWeeklyPostStats` rotates, Monday first. */
  const Days: seq<string> := ["Mon", "Tue", "Wed", "Thu", "Fri", "Sat", "Sun"]

  /** The name of the day `Date.getDay()` numbers `today` (0 is Sunday). */
  function DayName(today: int): string
    requires 0 <= today < 7
  {
    ["Sun", "Mon", "Tue", "Wed", "Thu", "Fri", "Sat"][today]
  }

  /** Today's place in the Monday-first week. */
  function MondayIndex(today: int): int
  {
    if today == 0 then 6 else today - 1
  }

  /** Both numberings agree on today's name. */
  lemma NameAtMondayIndex(today: int)
    requires 0 <= today < 7
    ensures 0 <= MondayIndex(today) < 7 && Days[MondayIndex(today)] == DayName(today)
  {
  }

  lemma DaysDistinct()
    ensures forall a, b :: 0 <= a < b < 7 ==> Days[a] != Days[b]
  {
  }

  lemma RotationIndex(d: seq<string>, k: int)
    requires |d| == 7 && 0 <= k < 7
    ensures |d[k..] + d[..k]| == 7
    ensures forall i :: 0 <= i < 7 ==> (d[k..] + d[..k])[i] == d[(k + i) % 7]
  {
    var r := d[k..] + d[..k];
    forall i | 0 <= i < 7 ensures r[i] == d[(k + i) % 7] {
      if i < 7 - k {
        assert r[i] == d[k + i];
      } else {
        assert r[i] == d[i - (7 - k)];
        assert (k + i) % 7 == k + i - 7;
      }
    }
  }

  /** Rotating the week keeps the days in calendar order and lists each once. */
  lemma RotationDistinct(k: int)
    requires 0 <= k < 7
    ensures |Days[k..] + Days[..k]| == 7
    ensures forall i :: 0 <= i < 7 ==> (Days[k..] + Days[..k])[i] == Days[(k + i) % 7]
    ensures forall i, j :: 0 <= i < j < 7 ==> (Days[k..] + Days[..k])[i] != (Days[k..] + Days[..k])[j]
  {
    var r := Days[k..] + Days[..k];
    RotationIndex(Days, k);
    DaysDistinct();
    forall i, j | 0 <= i < j < 7 ensures r[i] != r[j] {
      assert (k + i) % 7 != (k + j) % 7;
    }
  }

  /**
   * `[...days.slice(k), ...days.slice(0, k)]` with `k` today's place in the
   * Monday-first week: the seven days, each once, starting at today and
   * continuing in calendar order.
   */
  function WeekdayOrder(today: int): (r: seq<string>)
    requires 0 <= today < 7
    ensures |r| == 7 && r[0] == DayName(today)
    ensures forall i :: 0 <= i < 7 ==> r[i] == Days[(MondayIndex(today) + i) % 7]
    ensures forall i, j :: 0 <= i < j < |r| ==> r[i] != r[j]
  {
    var k := MondayIndex(today);
    NameAtMondayIndex(today);
    RotationDistinct(k);
    Days[k..] + Days[..k]
  }

  /** One day of the weekly statistics. */
  datatype DayPosts = DayPosts(day: string, posts: int)

  /**
   * `getWeeklyPostStats`: the rotated days, each with `floor(random * 10) +
   * (6 - index)` posts; `rolls` holds the seven values `floor(random * 10)`.
   */
  function WeeklyPostStats(today: int, rolls: seq<int>): (r: seq<DayPosts>)
    requires 0 <= today < 7 && |rolls| == 7
    requires forall i :: 0 <= i < 7 ==> 0 <= rolls[i] < 10
    ensures |r| == 7 && r[0].day == DayName(today)
    ensures forall i :: 0 <= i < 7 ==> r[i].day == WeekdayOrder(today)[i] && 6 - i <= r[i].posts <= 15 - i
  {
    var days := WeekdayOrder(today);
    seq(7, i requires 0 <= i < 7 => DayPosts(days[i], rolls[i] + (6 - i)))
  }
}
