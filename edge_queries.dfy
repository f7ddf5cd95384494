/**
 * The reads and the validation chains of the `discord-api` handlers, as functions over the
 * tables (each table a sequence of rows in insertion order, which is `created_at` order).
 */
module EdgeQueries {
  import opened Wrappers
  import opened Seqs
  import opened Text
  import opened EdgeRows

  /** `.single()`: the row when exactly one row matches; otherwise null and an error. */
  function Single<T>(rows: seq<T>): (r: Option<T>)
    ensures r.Some? <==> |rows| == 1
    ensures r.Some? ==> r.value == rows[0]
  {
    if |rows| == 1 then Some(rows[0]) else None
  }

  // ---------------------------------------------------------------- memberships

  /** The store's unique constraint on (server_id, user_id) in `server_members`. */
  predicate UniqueMemberships(members: seq<MemberRow>) {
    forall i, j :: 0 <= i < j < |members| ==>
      !(members[i].serverId == members[j].serverId && members[i].userId == members[j].userId)
  }

  predicate HasMembership(members: seq<MemberRow>, serverId: Id, userId: Id) {
    exists i :: 0 <= i < |members| && members[i].serverId == serverId && members[i].userId == userId
  }

  /** `server_members` rows with `.eq('server_id', serverId).eq('user_id', userId)`. */
  function MembershipsOf(members: seq<MemberRow>, serverId: Id, userId: Id): (r: seq<MemberRow>)
    ensures |r| <= |members|
    ensures forall k :: 0 <= k < |r| ==> r[k].serverId == serverId && r[k].userId == userId
    ensures forall k :: 0 <= k < |r| ==> r[k] in members
    ensures r == [] <==> !HasMembership(members, serverId, userId)
  {
    if members == [] then []
    else
      var rest := MembershipsOf(members[1..], serverId, userId);
      assert HasMembership(members, serverId, userId) <==>
        (members[0].serverId == serverId && members[0].userId == userId)
        || HasMembership(members[1..], serverId, userId) by {
        if HasMembership(members, serverId, userId) {
          var i :| 0 <= i < |members| && members[i].serverId == serverId && members[i].userId == userId;
          if i > 0 { assert members[1..][i - 1] == members[i]; }
        }
        if HasMembership(members[1..], serverId, userId) {
          var i :| 0 <= i < |members[1..]| && members[1..][i].serverId == serverId && members[1..][i].userId == userId;
          assert members[i + 1] == members[1..][i];
        }
      }
      if members[0].serverId == serverId && members[0].userId == userId then [members[0]] + rest else rest
  }

  /** Under the unique constraint a lookup by (server, user) finds at most one row. */
  lemma {:induction false} MembershipsOfUnique(members: seq<MemberRow>, serverId: Id, userId: Id)
    requires UniqueMemberships(members)
    ensures |MembershipsOf(members, serverId, userId)| <= 1
  {
    if members != [] {
      assert UniqueMemberships(members[1..]) by {
        forall i, j | 0 <= i < j < |members[1..]|
          ensures !(members[1..][i].serverId == members[1..][j].serverId && members[1..][i].userId == members[1..][j].userId)
        {
          assert members[1..][i] == members[i + 1] && members[1..][j] == members[j + 1];
        }
      }
      MembershipsOfUnique(members[1..], serverId, userId);
      if members[0].serverId == serverId && members[0].userId == userId {
        assert !HasMembership(members[1..], serverId, userId) by {
          forall i | 0 <= i < |members[1..]|
            ensures !(members[1..][i].serverId == serverId && members[1..][i].userId == userId)
          {
            assert members[1..][i] == members[i + 1];
          }
        }
      }
    }
  }

  /** The caller's role in a server: `.select('role').eq(...).eq(...).single()`. */
  function RoleOf(members: seq<MemberRow>, serverId: Id, userId: Id): (r: Option<string>)
    ensures r.Some? ==> HasMembership(members, serverId, userId)
  {
    match Single(MembershipsOf(members, serverId, userId))
    case Some(m) => Some(m.role)
    case None => None
  }

  /** Under the unique constraint a role is found exactly for members, and it is their row's role. */
  lemma RoleOfMember(members: seq<MemberRow>, serverId: Id, userId: Id)
    requires UniqueMemberships(members)
    ensures RoleOf(members, serverId, userId).Some? <==> HasMembership(members, serverId, userId)
    ensures forall m :: m in members && m.serverId == serverId && m.userId == userId ==>
      RoleOf(members, serverId, userId) == Some(m.role)
  {
    MembershipsOfUnique(members, serverId, userId);
    var ms := MembershipsOf(members, serverId, userId);
    forall m | m in members && m.serverId == serverId && m.userId == userId
      ensures RoleOf(members, serverId, userId) == Some(m.role)
    {
      var i :| 0 <= i < |members| && members[i] == m;
      assert HasMembership(members, serverId, userId);
      assert |ms| == 1;
      var j :| 0 <= j < |members| && members[j] == ms[0];
    }
  }

  /** `['owner', 'admin', 'moderator'].includes(member.role)` for a member that was found. */
  predicate MayCreateChannels(role: Option<string>) {
    role.Some? && role.value in ["owner", "admin", "moderator"]
  }

  // ---------------------------------------------------------------- servers of a user

  /** One entry per membership row of the user in `s`, carrying that row's role. */
  function WithRoles(s: ServerRow, ms: seq<MemberRow>): (r: seq<ServerWithRole>)
    ensures |r| == |ms|
    ensures forall k :: 0 <= k < |r| ==> r[k] == ServerWithRole(s, ms[k].role)
  {
    seq(|ms|, k requires 0 <= k < |ms| => ServerWithRole(s, ms[k].role))
  }

  /** `servers` inner-joined with the user's `server_members` rows, in table order. */
  function ServersOfUser(servers: seq<ServerRow>, members: seq<MemberRow>, userId: Id): seq<ServerWithRole>
  {
    if servers == [] then []
    else WithRoles(servers[0], MembershipsOf(members, servers[0].id, userId)) + ServersOfUser(servers[1..], members, userId)
  }

  /** A server is listed, with a role, exactly when the user holds a membership row with that role. */
  lemma {:induction false} ServersOfUserIff(servers: seq<ServerRow>, members: seq<MemberRow>, userId: Id, x: ServerWithRole)
    ensures x in ServersOfUser(servers, members, userId) <==>
      x.server in servers
      && exists m :: m in members && m.serverId == x.server.id && m.userId == userId && m.role == x.role
  {
    if servers != [] {
      ServersOfUserIff(servers[1..], members, userId, x);
      var ms := MembershipsOf(members, servers[0].id, userId);
      var head := WithRoles(servers[0], ms);
      assert ServersOfUser(servers, members, userId) == head + ServersOfUser(servers[1..], members, userId);
      if x in head {
        var k :| 0 <= k < |head| && head[k] == x;
        assert ms[k] in members;
      }
      if x.server == servers[0] && exists m :: m in members && m.serverId == x.server.id && m.userId == userId && m.role == x.role {
        var m :| m in members && m.serverId == x.server.id && m.userId == userId && m.role == x.role;
        var i :| 0 <= i < |members| && members[i] == m;
        assert HasMembership(members, servers[0].id, userId);
        MembershipsOfContains(members, servers[0].id, userId, i);
        var k :| 0 <= k < |ms| && ms[k] == m;
        assert head[k] == x;
      }
    }
  }

  /** Every row matching the lookup appears in the lookup's result. */
  lemma {:induction false} MembershipsOfContains(members: seq<MemberRow>, serverId: Id, userId: Id, i: nat)
    requires i < |members| && members[i].serverId == serverId && members[i].userId == userId
    ensures members[i] in MembershipsOf(members, serverId, userId)
  {
    if i > 0 {
      assert members[1..][i - 1] == members[i];
      MembershipsOfContains(members[1..], serverId, userId, i - 1);
    }
  }

  // ---------------------------------------------------------------- channels

  /** `.order('position', { ascending: true })`: ascending, rows without a position last. */
  predicate PositionLe(a: ChannelRow, b: ChannelRow) {
    match (a.position, b.position)
    case (Some(x), Some(y)) => x <= y
    case (_, None) => true
    case (None, Some(_)) => false
  }

  predicate SortedByPosition(cs: seq<ChannelRow>) {
    forall i, j :: 0 <= i < j < |cs| ==> PositionLe(cs[i], cs[j])
  }

  function InsertByPosition(c: ChannelRow, cs: seq<ChannelRow>): (r: seq<ChannelRow>)
    requires SortedByPosition(cs)
    ensures SortedByPosition(r)
    ensures multiset(r) == multiset(cs) + multiset{c}
    ensures |r| == |cs| + 1
    ensures r != [] && (r[0] == c || (cs != [] && r[0] == cs[0]))
  {
    if cs == [] || PositionLe(c, cs[0]) then
      ConsSorted(c, cs);
      [c] + cs
    else
      var rest := InsertByPosition(c, cs[1..]);
      assert cs == [cs[0]] + cs[1..];
      PositionLeTotal(c, cs[0]);
      ConsSorted(cs[0], rest);
      [cs[0]] + rest
  }

  lemma PositionLeTransitive(a: ChannelRow, b: ChannelRow, c: ChannelRow)
    requires PositionLe(a, b) && PositionLe(b, c)
    ensures PositionLe(a, c)
  {
  }

  lemma PositionLeTotal(a: ChannelRow, b: ChannelRow)
    ensures PositionLe(a, b) || PositionLe(b, a)
  {
  }

  /** A row no later than the head of a sorted list can go in front of it. */
  lemma ConsSorted(h: ChannelRow, rest: seq<ChannelRow>)
    requires SortedByPosition(rest) && (rest != [] ==> PositionLe(h, rest[0]))
    ensures SortedByPosition([h] + rest)
  {
    var r := [h] + rest;
    forall i, j | 0 <= i < j < |r| ensures PositionLe(r[i], r[j]) {
      if i == 0 {
        assert r[j] == rest[j - 1];
        if j > 1 {
          PositionLeTransitive(h, rest[0], rest[j - 1]);
        }
      } else {
        assert r[i] == rest[i - 1] && r[j] == rest[j - 1];
      }
    }
  }

  function SortByPosition(cs: seq<ChannelRow>): (r: seq<ChannelRow>)
    ensures SortedByPosition(r)
    ensures multiset(r) == multiset(cs)
  {
    if cs == [] then []
    else
      assert cs == [cs[0]] + cs[1..];
      InsertByPosition(cs[0], SortByPosition(cs[1..]))
  }

  /** The channels of a server ordered by position: exactly that server's rows, sorted. */
  function ChannelsOf(channels: seq<ChannelRow>, serverId: Id): (r: seq<ChannelRow>)
    ensures SortedByPosition(r)
    ensures forall c :: c in r <==> c in channels && c.serverId == serverId
  {
    var mine := Filter(channels, (c: ChannelRow) => c.serverId == serverId);
    var r := SortByPosition(mine);
    SameElements(r, mine);
    FilterMembers(channels, (c: ChannelRow) => c.serverId == serverId);
    r
  }

  /** The two channels every new server starts with. */
  function DefaultChannels(serverId: Id, textId: Id, voiceId: Id): (r: seq<ChannelRow>)
    ensures |r| == 2 && r[0].kind == "text" && r[1].kind == "voice"
    ensures r[0].position == Some(0) && r[1].position == Some(1)
    ensures forall k :: 0 <= k < 2 ==> r[k].serverId == serverId
  {
    [ ChannelRow(textId, serverId, Some("общий"), "text", Some(0)),
      ChannelRow(voiceId, serverId, Some("Общий голосовой"), "voice", Some(1)) ]
  }

  // ---------------------------------------------------------------- messages

  /** The text a missing `limit` parameter stands for: "50" (see `DefaultLimitText`). */
  const DefaultLimit := IntToString(50)

  /** `parseInt(url.searchParams.get('limit') || '50')`; None stands for NaN. */
  function MessageLimit(param: Option<string>): Option<int> {
    ParseInt(if Truthy(param) then param.value else DefaultLimit)
  }

  /** The default is the two-character text "50". */
  lemma DefaultLimitText()
    ensures DefaultLimit == "50"
  {
    assert NatToString(5) == "5";
    assert NatToString(50) == NatToString(5) + [DigitChar(0)];
  }

  /** An absent or empty `limit` parameter means 50. */
  lemma MessageLimitDefault()
    ensures MessageLimit(None) == Some(50)
    ensures MessageLimit(Some([])) == Some(50)
  {
    ParseIntOfIntToString(50);
  }

  /** A decimal `limit` parameter is read as written. */
  lemma MessageLimitAsWritten(n: nat)
    ensures MessageLimit(Some(IntToString(n))) == Some(n)
  {
    ParseIntOfIntToString(n);
  }

  function ChannelMessages(messages: seq<MessageRow>, channelId: Id): seq<MessageRow> {
    Filter(messages, (m: MessageRow) => m.channelId == channelId)
  }

  /**
   * `.order('created_at', { ascending: false }).limit(limit)` followed by `.reverse()`:
   * take the newest `limit` rows, then put them back in chronological order.
   */
  function RecentMessages(messages: seq<MessageRow>, channelId: Id, limit: nat): seq<MessageRow> {
    Reverse(Take(Reverse(ChannelMessages(messages, channelId)), limit))
  }

  /** The result is the last `limit` messages of the channel, oldest first. */
  lemma RecentMessagesAreLatest(messages: seq<MessageRow>, channelId: Id, limit: nat)
    ensures var all := ChannelMessages(messages, channelId);
      var k := if limit < |all| then limit else |all|;
      RecentMessages(messages, channelId, limit) == all[|all| - k..]
  {
    var all := ChannelMessages(messages, channelId);
    var k := if limit < |all| then limit else |all|;
    var newest := Take(Reverse(all), limit);
    var r := Reverse(newest);
    assert |r| == k;
    forall i | 0 <= i < k ensures r[i] == all[|all| - k + i] {
      assert r[i] == newest[k - 1 - i];
      assert newest[k - 1 - i] == Reverse(all)[k - 1 - i];
    }
  }

  // ---------------------------------------------------------------- search

  /** `.ilike('name', '%' + q + '%')`: the name contains `q`, ignoring case; a null name never matches. */
  predicate NameMatches(s: ServerRow, q: string) {
    s.name.Some? && Includes(ToLower(s.name.value), ToLower(q))
  }

  /** Every server whose name matches `q`, in table order. */
  function MatchingServers(servers: seq<ServerRow>, q: string): (r: seq<ServerRow>)
    ensures forall s :: s in r <==> s in servers && NameMatches(s, q)
  {
    FilterMembers(servers, (s: ServerRow) => NameMatches(s, q));
    Filter(servers, (s: ServerRow) => NameMatches(s, q))
  }

  /**
   * The servers matching the trimmed query, at most 20 (`.limit(20)`): all of them when there
   * are at most 20, otherwise 20 of them (the first 20 in table order).
   */
  function SearchCandidates(servers: seq<ServerRow>, query: string): (r: seq<ServerRow>)
    ensures var matching := MatchingServers(servers, Trim(query));
      |r| == if |matching| < 20 then |matching| else 20
    ensures forall k :: 0 <= k < |r| ==> r[k] in servers && NameMatches(r[k], Trim(query))
    ensures |MatchingServers(servers, Trim(query))| <= 20 ==>
      forall s :: s in servers && NameMatches(s, Trim(query)) ==> s in r
  {
    var matching := MatchingServers(servers, Trim(query));
    TakeFromMatching(matching, servers, Trim(query));
    Take(matching, 20)
  }

  /** Each of the first 20 matches is a matching server of the table. */
  lemma TakeFromMatching(matching: seq<ServerRow>, servers: seq<ServerRow>, q: string)
    requires forall s :: s in matching ==> s in servers && NameMatches(s, q)
    ensures forall k :: 0 <= k < |Take(matching, 20)| ==> Take(matching, 20)[k] in servers && NameMatches(Take(matching, 20)[k], q)
  {
    var r := Take(matching, 20);
    forall k | 0 <= k < |r| ensures r[k] in servers && NameMatches(r[k], q) {
      assert r[k] == matching[k];
    }
  }

  /** Number of membership rows of a server. */
  function MemberCount(members: seq<MemberRow>, serverId: Id): nat {
    if members == [] then 0
    else MemberCount(members[..|members| - 1], serverId) + (if members[|members| - 1].serverId == serverId then 1 else 0)
  }

  /** A server has members exactly when some membership row names it. */
  lemma {:induction false} MemberCountPositive(members: seq<MemberRow>, serverId: Id)
    ensures MemberCount(members, serverId) > 0 <==> exists i :: 0 <= i < |members| && members[i].serverId == serverId
  {
    if members != [] {
      var init := members[..|members| - 1];
      MemberCountPositive(init, serverId);
      if exists i :: 0 <= i < |init| && init[i].serverId == serverId {
        var i :| 0 <= i < |init| && init[i].serverId == serverId;
        assert members[i] == init[i];
      }
      if exists i :: 0 <= i < |members| && members[i].serverId == serverId {
        var i :| 0 <= i < |members| && members[i].serverId == serverId;
        if i < |members| - 1 { assert init[i] == members[i]; }
      }
    }
  }

  /** The `memberCountMap` accumulator after folding over some membership rows. */
  predicate CountsAgree(counts: map<Id, nat>, members: seq<MemberRow>, serverIds: seq<Id>) {
    && (forall id :: id in counts ==> id in serverIds && counts[id] == MemberCount(members, id) && counts[id] > 0)
    && (forall id :: id in serverIds && MemberCount(members, id) > 0 ==> id in counts)
  }

  /**
   * `memberCounts.reduce((acc, member) => { acc[id] = (acc[id] || 0) + 1 }, {})` over the
   * membership rows whose server is one of `serverIds`.
   */
  method CountMembers(members: seq<MemberRow>, serverIds: seq<Id>) returns (counts: map<Id, nat>)
    ensures CountsAgree(counts, members, serverIds)
  {
    counts := map[];
    var i := 0;
    while i < |members|
      invariant 0 <= i <= |members|
      invariant CountsAgree(counts, members[..i], serverIds)
    {
      var id := members[i].serverId;
      assert members[..i + 1][..i] == members[..i];
      if id in serverIds {
        counts := counts[id := (if id in counts then counts[id] else 0) + 1];
      }
      i := i + 1;
    }
    assert members[..i] == members;
  }

  /** One search result: `member_count: memberCountMap[id] || 0` and `is_member`. */
  function Hit(s: ServerRow, counts: map<Id, nat>, members: seq<MemberRow>, userId: Id): SearchHit {
    SearchHit(s.id, s.name, s.description, s.iconUrl,
      if s.id in counts then counts[s.id] else 0, HasMembership(members, s.id, userId))
  }

  /** A missing, empty or blank body field (`!x || x.trim().length === 0`). */
  predicate BlankField(query: Option<string>) {
    !Truthy(query) || IsBlank(query.value)
  }

  /** The search results, built from a member-count map as the handler builds them. */
  function SearchHits(servers: seq<ServerRow>, counts: map<Id, nat>, members: seq<MemberRow>, userId: Id, query: Option<string>): seq<SearchHit> {
    if BlankField(query) then []
    else
      var found := SearchCandidates(servers, query.value);
      seq(|found|, k requires 0 <= k < |found| => Hit(found[k], counts, members, userId))
  }

  /** A search result with the server's own number of membership rows and the caller's membership. */
  function SpecHit(s: ServerRow, members: seq<MemberRow>, userId: Id): SearchHit {
    SearchHit(s.id, s.name, s.description, s.iconUrl, MemberCount(members, s.id), HasMembership(members, s.id, userId))
  }

  /**
   * The search results: a blank query gives none; otherwise at most 20 servers whose name
   * contains the trimmed query (ignoring case), each with its number of membership rows and
   * whether the caller holds one.
   */
  function ServerSearch(servers: seq<ServerRow>, members: seq<MemberRow>, userId: Id, query: Option<string>): (r: seq<SearchHit>)
    ensures BlankField(query) ==> r == []
    ensures |r| <= 20
    ensures forall k :: 0 <= k < |r| ==> r[k].memberCount == MemberCount(members, r[k].id)
    ensures forall k :: 0 <= k < |r| ==> (r[k].isMember <==> HasMembership(members, r[k].id, userId))
    ensures !BlankField(query) ==> forall k :: 0 <= k < |r| ==>
      r[k].name.Some? && Includes(ToLower(r[k].name.value), ToLower(Trim(query.value)))
    ensures !BlankField(query) ==>
      var found := SearchCandidates(servers, query.value);
      && |r| == |found|
      && forall k :: 0 <= k < |r| ==>
           r[k].id == found[k].id && r[k].name == found[k].name
           && r[k].description == found[k].description && r[k].iconUrl == found[k].iconUrl
  {
    if BlankField(query) then []
    else
      var found := SearchCandidates(servers, query.value);
      seq(|found|, k requires 0 <= k < |found| => SpecHit(found[k], members, userId))
  }

  /** When at most 20 servers match, every matching server appears in the results. */
  lemma ServerSearchFindsEveryMatch(servers: seq<ServerRow>, members: seq<MemberRow>, userId: Id,
                                    query: Option<string>, s: ServerRow)
    requires !BlankField(query) && |MatchingServers(servers, Trim(query.value))| <= 20
    requires s in servers && NameMatches(s, Trim(query.value))
    ensures exists k ::
      0 <= k < |ServerSearch(servers, members, userId, query)| && ServerSearch(servers, members, userId, query)[k].id == s.id
  {
    var found := SearchCandidates(servers, query.value);
    var k :| 0 <= k < |found| && found[k] == s;
    assert ServerSearch(servers, members, userId, query)[k].id == s.id;
  }

  /** With the counts the fold computes, the handler's entry for a candidate is the specified one. */
  lemma HitAgrees(s: ServerRow, counts: map<Id, nat>, members: seq<MemberRow>, userId: Id, ids: seq<Id>)
    requires CountsAgree(counts, members, ids) && s.id in ids
    ensures Hit(s, counts, members, userId) == SpecHit(s, members, userId)
  {
  }

  /** Building the results from the counts the fold computes gives exactly the search results. */
  lemma SearchHitsFromCounts(servers: seq<ServerRow>, counts: map<Id, nat>, members: seq<MemberRow>, userId: Id, query: Option<string>)
    requires CountsAgree(counts, members, SearchIds(servers, query))
    ensures SearchHits(servers, counts, members, userId, query) == ServerSearch(servers, members, userId, query)
  {
    if !BlankField(query) {
      var found := SearchCandidates(servers, query.value);
      var ids := SearchIds(servers, query);
      var r := SearchHits(servers, counts, members, userId, query);
      var spec := ServerSearch(servers, members, userId, query);
      assert |r| == |spec| == |found|;
      forall k | 0 <= k < |found| ensures r[k] == spec[k] {
        assert ids[k] == found[k].id;
        HitAgrees(found[k], counts, members, userId, ids);
      }
    }
  }

  /** The ids of the candidate servers (`allServers.map(server => server.id)`). */
  function SearchIds(servers: seq<ServerRow>, query: Option<string>): seq<Id> {
    if BlankField(query) then []
    else
      var found := SearchCandidates(servers, query.value);
      seq(|found|, k requires 0 <= k < |found| => found[k].id)
  }

  // ---------------------------------------------------------------- invites

  /** Finds the server an invite points at (the embedded `servers(...)`); null when it is gone. */
  function FindServer(servers: seq<ServerRow>, id: Id): (r: Option<ServerRow>)
    ensures r.Some? ==> r.value in servers && r.value.id == id
    ensures r.None? ==> forall k :: 0 <= k < |servers| ==> servers[k].id != id
  {
    if servers == [] then None
    else if servers[0].id == id then Some(servers[0])
    else
      var r := FindServer(servers[1..], id);
      assert forall k :: 1 <= k < |servers| ==> servers[k] == servers[1..][k - 1];
      r
  }

  /** `server_invites` rows with `.eq('code', code).eq('is_active', true)`. */
  function ActiveWithCode(invites: seq<InviteRow>, code: string): seq<InviteRow> {
    Filter(invites, (inv: InviteRow) => inv.code == code && inv.isActive)
  }

  /** `invite.expires_at && new Date(invite.expires_at) < new Date()` */
  predicate Expired(inv: InviteRow, now: int) {
    inv.expiresAt.Some? && inv.expiresAt.value < now
  }

  /** `invite.max_uses && invite.used_count >= invite.max_uses`: a zero or null limit means unlimited. */
  predicate UsedUp(inv: InviteRow) {
    TruthyNum(inv.maxUses) && inv.usedCount >= inv.maxUses.value
  }

  datatype JoinCheck = Refuse(response: Response) | Admit(invite: InviteRow, server: ServerRow)

  /** `.eq('code', code.trim().toUpperCase()).eq('is_active', true).single()` */
  function LookupInvite(invites: seq<InviteRow>, code: string): (r: Option<InviteRow>)
    ensures r.Some? ==> r.value in invites && r.value.isActive && r.value.code == ToUpper(Trim(code))
  {
    Single(ActiveWithCode(invites, ToUpper(Trim(code))))
  }

  /** The ordered checks of join-by-invite before anything is written. */
  function JoinByInviteCheck(invites: seq<InviteRow>, servers: seq<ServerRow>, members: seq<MemberRow>,
                             userId: Id, code: Option<string>, now: int): (r: JoinCheck)
    ensures r.Refuse? ==> r.response.status in {400, 404, 409, 410, 500}
  {
    if !Truthy(code) || IsBlank(code.value) then Refuse(Fail(400, "Invite code required"))
    else
      match LookupInvite(invites, code.value)
      case None => Refuse(Fail(404, "Invalid or expired invite code"))
      case Some(inv) =>
        if Expired(inv, now) then Refuse(Fail(410, "Invite code has expired"))
        else if UsedUp(inv) then Refuse(Fail(410, "Invite code has reached maximum uses"))
        else
          match FindServer(servers, inv.serverId)
          case None => Refuse(Thrown)
          case Some(srv) =>
            if Single(MembershipsOf(members, srv.id, userId)).Some? then
              Refuse(Fail(409, "Already a member of this server"))
            else Admit(inv, srv)
  }

  /** The store's unique constraint on invite codes. */
  predicate UniqueCodes(invites: seq<InviteRow>) {
    forall i, j :: 0 <= i < j < |invites| ==> invites[i].code != invites[j].code
  }

  /** With unique codes, the active-code lookup finds exactly the active row carrying the code. */
  lemma ActiveWithCodeUnique(invites: seq<InviteRow>, code: string, inv: InviteRow)
    requires UniqueCodes(invites)
    ensures Single(ActiveWithCode(invites, code)) == Some(inv) <==> inv in invites && inv.code == code && inv.isActive
  {
    var found := ActiveWithCode(invites, code);
    if inv in invites && inv.code == code && inv.isActive {
      var i :| 0 <= i < |invites| && invites[i] == inv;
      assert inv in found;
      if |found| > 1 {
        var a :| 0 <= a < |invites| && invites[a] == found[0];
        var b :| 0 <= b < |invites| && invites[b] == found[1];
        FilterOrdered(invites, (x: InviteRow) => x.code == code && x.isActive);
      }
    }
  }

  /** Two positions of a filtered list come from two positions of the original list. */
  lemma {:induction false} FilterOrdered<T>(s: seq<T>, p: T -> bool)
    ensures |Filter(s, p)| >= 2 ==> Filter(s, p)[0] != Filter(s, p)[1] || exists i, j :: 0 <= i < j < |s| && s[i] == s[j]
  {
    if s != [] {
      FilterOrdered(s[1..], p);
      var rest := Filter(s[1..], p);
      if p(s[0]) && |rest| >= 1 && rest[0] == s[0] {
        var k :| 0 <= k < |s[1..]| && s[1..][k] == rest[0];
        assert s[0] == s[k + 1];
      } else if !p(s[0]) && |rest| >= 2 && rest[0] == rest[1] {
        var i, j :| 0 <= i < j < |s[1..]| && s[1..][i] == s[1..][j];
        assert s[i + 1] == s[j + 1];
      }
    }
  }

  /**
   * Join-by-invite admits exactly when the code is not blank, the active invite with the
   * upper-cased trimmed code exists, has not expired, is not used up, its server exists and
   * the caller is not already a member of that server.
   */
  lemma JoinByInviteAdmitIff(invites: seq<InviteRow>, servers: seq<ServerRow>, members: seq<MemberRow>,
                             userId: Id, code: Option<string>, now: int, inv: InviteRow, srv: ServerRow)
    requires UniqueCodes(invites) && UniqueMemberships(members)
    ensures JoinByInviteCheck(invites, servers, members, userId, code, now) == Admit(inv, srv) <==>
      && code.Some? && !IsBlank(code.value)
      && inv in invites && inv.isActive && inv.code == ToUpper(Trim(code.value))
      && !Expired(inv, now) && !UsedUp(inv)
      && FindServer(servers, inv.serverId) == Some(srv)
      && !HasMembership(members, srv.id, userId)
  {
    var r := JoinByInviteCheck(invites, servers, members, userId, code, now);
    if code.None? || IsBlank(code.value) {
      assert r.Refuse?;
    } else {
      assert Truthy(code);
      var c := ToUpper(Trim(code.value));
      var found := LookupInvite(invites, code.value);
      ActiveWithCodeUnique(invites, c, inv);
      if found.None? {
        assert r.Refuse?;
      } else {
        var f := found.value;
        ActiveWithCodeUnique(invites, c, f);
        if Expired(f, now) || UsedUp(f) {
          assert r.Refuse?;
        } else if FindServer(servers, f.serverId).None? {
          assert r.Refuse?;
        } else {
          var g := FindServer(servers, f.serverId).value;
          MembershipsOfUnique(members, g.id, userId);
          assert Single(MembershipsOf(members, g.id, userId)).Some? <==> HasMembership(members, g.id, userId);
          assert r == if HasMembership(members, g.id, userId) then Refuse(Fail(409, "Already a member of this server")) else Admit(f, g);
        }
      }
    }
  }

  /**
   * The first two refusals of join-by-invite: a missing or blank code is refused with 400
   * before any lookup, and a code no active invite carries (trimmed and upper-cased) with 404.
   */
  lemma JoinByInviteEarlyRefusals(invites: seq<InviteRow>, servers: seq<ServerRow>, members: seq<MemberRow>,
                                  userId: Id, code: Option<string>, now: int)
    ensures code.None? || IsBlank(code.value) ==>
      JoinByInviteCheck(invites, servers, members, userId, code, now) == Refuse(Fail(400, "Invite code required"))
    ensures code.Some? && !IsBlank(code.value)
      && (forall i :: 0 <= i < |invites| ==> !(invites[i].isActive && invites[i].code == ToUpper(Trim(code.value))))
      ==> JoinByInviteCheck(invites, servers, members, userId, code, now) == Refuse(Fail(404, "Invalid or expired invite code"))
  {
    if code.Some? && !IsBlank(code.value) {
      assert code.value != [] by { assert Trim([]) == []; }
      var found := ActiveWithCode(invites, ToUpper(Trim(code.value)));
      if |found| > 0 {
        assert found[0] in invites;
      }
    }
  }

  /**
   * The later refusals, in the order the handler makes them, for the active invite `inv`
   * carrying the trimmed, upper-cased code: 410 when it has expired; otherwise 410 when it is
   * used up; otherwise 500 when its server is gone (`invite.servers.id` throws); otherwise 409
   * when the caller already holds a membership of that server.
   */
  lemma JoinByInviteRefusals(invites: seq<InviteRow>, servers: seq<ServerRow>, members: seq<MemberRow>,
                             userId: Id, code: Option<string>, now: int, inv: InviteRow)
    requires UniqueCodes(invites) && UniqueMemberships(members)
    requires code.Some? && !IsBlank(code.value)
    requires inv in invites && inv.isActive && inv.code == ToUpper(Trim(code.value))
    ensures var r := JoinByInviteCheck(invites, servers, members, userId, code, now);
      && (Expired(inv, now) ==> r == Refuse(Fail(410, "Invite code has expired")))
      && (!Expired(inv, now) && UsedUp(inv) ==> r == Refuse(Fail(410, "Invite code has reached maximum uses")))
      && (!Expired(inv, now) && !UsedUp(inv) && FindServer(servers, inv.serverId).None? ==> r == Refuse(Thrown))
      && (!Expired(inv, now) && !UsedUp(inv) && FindServer(servers, inv.serverId).Some?
          && HasMembership(members, FindServer(servers, inv.serverId).value.id, userId)
          ==> r == Refuse(Fail(409, "Already a member of this server")))
  {
    assert code.value != [] by { assert Trim([]) == []; }
    ActiveWithCodeUnique(invites, ToUpper(Trim(code.value)), inv);
    assert LookupInvite(invites, code.value) == Some(inv);
    if FindServer(servers, inv.serverId).Some? {
      var srv := FindServer(servers, inv.serverId).value;
      MembershipsOfUnique(members, srv.id, userId);
    }
  }

  /** What an admitted join relies on: the invite row and its server exist and the caller is not yet a member. */
  lemma JoinByInviteAdmitFacts(invites: seq<InviteRow>, servers: seq<ServerRow>, members: seq<MemberRow>,
                               userId: Id, code: Option<string>, now: int)
    requires UniqueMemberships(members)
    ensures var r := JoinByInviteCheck(invites, servers, members, userId, code, now);
      r.Admit? ==> && r.invite in invites && r.server in servers && r.server.id == r.invite.serverId
                   && !HasMembership(members, r.server.id, userId)
  {
    var r := JoinByInviteCheck(invites, servers, members, userId, code, now);
    if r.Admit? {
      assert Truthy(code) && !IsBlank(code.value);
      var inv := LookupInvite(invites, code.value).value;
      var srv := FindServer(servers, inv.serverId).value;
      assert r == Admit(inv, srv);
      MembershipsOfUnique(members, srv.id, userId);
    }
  }

  /** `update({ used_count }).eq('id', id)`: every row with that id gets the new count. */
  function SetUsedCount(invites: seq<InviteRow>, id: Id, usedCount: int): (r: seq<InviteRow>)
    ensures |r| == |invites|
  {
    seq(|invites|, k requires 0 <= k < |invites| =>
      if invites[k].id == id then invites[k].(usedCount := usedCount) else invites[k])
  }

  /** The store's primary key on `server_invites`. */
  predicate UniqueInviteIds(invites: seq<InviteRow>) {
    forall i, j :: 0 <= i < j < |invites| ==> invites[i].id != invites[j].id
  }

  /** Redeeming an invite raises exactly its own used_count by one and leaves every other row as it was. */
  lemma UsedCountRisesByOne(invites: seq<InviteRow>, j: nat)
    requires UniqueInviteIds(invites) && j < |invites|
    ensures var r := SetUsedCount(invites, invites[j].id, invites[j].usedCount + 1);
      && r[j] == invites[j].(usedCount := invites[j].usedCount + 1)
      && r[j].usedCount == invites[j].usedCount + 1
      && forall k :: 0 <= k < |invites| && k != j ==> r[k] == invites[k]
  {
    var r := SetUsedCount(invites, invites[j].id, invites[j].usedCount + 1);
    forall k | 0 <= k < |invites| && k != j ensures r[k] == invites[k] {
      if k < j { assert invites[k].id != invites[j].id; } else { assert invites[j].id != invites[k].id; }
    }
  }

  /** `.eq('code', inviteCode).single()` found a row: the candidate code is taken. */
  predicate CodeTaken(invites: seq<InviteRow>, code: string) {
    Single(Filter(invites, (inv: InviteRow) => inv.code == code)).Some?
  }

  /** With unique codes a code is taken exactly when some invite carries it. */
  lemma CodeTakenIff(invites: seq<InviteRow>, code: string)
    requires UniqueCodes(invites)
    ensures CodeTaken(invites, code) <==> exists i :: 0 <= i < |invites| && invites[i].code == code
  {
    var p := (inv: InviteRow) => inv.code == code;
    var found := Filter(invites, p);
    if exists i :: 0 <= i < |invites| && invites[i].code == code {
      var i :| 0 <= i < |invites| && invites[i].code == code;
      assert invites[i] in found;
      if |found| > 1 {
        var a :| 0 <= a < |invites| && invites[a] == found[0];
        var b :| 0 <= b < |invites| && invites[b] == found[1];
        FilterOrdered(invites, p);
        if a != b { assert false; }
      }
    }
  }

  /** The number of codes the generator tries before giving up. */
  const MaxCodeAttempts := 10

  /** The first `k` codes from the generator all came back and were all taken. */
  predicate AllTaken(invites: seq<InviteRow>, rpc: seq<Option<string>>, k: nat)
    requires k <= |rpc|
  {
    forall j :: 0 <= j < k ==> rpc[j].Some? && CodeTaken(invites, rpc[j].value)
  }

  /** Attempt `k` is the first whose code came back free. */
  predicate FreeAt(invites: seq<InviteRow>, rpc: seq<Option<string>>, k: int) {
    0 <= k < MaxCodeAttempts && k < |rpc| && AllTaken(invites, rpc, k)
    && rpc[k].Some? && !CodeTaken(invites, rpc[k].value)
  }

  /** Attempt `k`, after only taken codes, is an rpc error. */
  predicate FailedAt(invites: seq<InviteRow>, rpc: seq<Option<string>>, k: int) {
    0 <= k < MaxCodeAttempts && k < |rpc| && AllTaken(invites, rpc, k) && rpc[k].None?
  }

  datatype CodeOutcome = Generated(code: string) | RpcFailed | Collided

  /**
   * The do-while loop of create-invite: call `generate_invite_code` (the `rpc` answers, None
   * for an error, which is thrown), stop at the first code no invite has, give up after ten
   * codes that were all taken.
   */
  method GenerateInviteCode(invites: seq<InviteRow>, rpc: seq<Option<string>>) returns (outcome: CodeOutcome)
    requires |rpc| >= MaxCodeAttempts
    ensures outcome.Generated? ==>
      (exists k :: 0 <= k < MaxCodeAttempts && AllTaken(invites, rpc, k) && rpc[k] == Some(outcome.code))
      && !CodeTaken(invites, outcome.code)
    ensures outcome.RpcFailed? ==> exists k :: 0 <= k < MaxCodeAttempts && AllTaken(invites, rpc, k) && rpc[k].None?
    ensures outcome.Collided? <==> AllTaken(invites, rpc, MaxCodeAttempts)
    ensures forall k :: FreeAt(invites, rpc, k) ==> outcome == Generated(rpc[k].value)
    ensures forall k :: FailedAt(invites, rpc, k) ==> outcome == RpcFailed
  {
    var attempts := 0;
    var inviteCode := "";
    while true
      invariant 0 <= attempts < MaxCodeAttempts
      invariant AllTaken(invites, rpc, attempts)
      decreases MaxCodeAttempts - attempts
    {
      if rpc[attempts].None? {
        return RpcFailed;
      }
      inviteCode := rpc[attempts].value;
      if !CodeTaken(invites, inviteCode) {
        break;
      }
      attempts := attempts + 1;
      if attempts >= MaxCodeAttempts {
        break;
      }
    }
    if attempts >= MaxCodeAttempts {
      return Collided;
    }
    outcome := Generated(inviteCode);
    assert !AllTaken(invites, rpc, MaxCodeAttempts) by {
      assert !(rpc[attempts].Some? && CodeTaken(invites, rpc[attempts].value));
    }
  }

  /** The row create-invite inserts: `max_uses || null`, `expires_at || null`, a fresh count, active. */
  function NewInvite(id: Id, serverId: Id, code: string, userId: Id, maxUses: Option<int>, expiresAt: Option<int>): (r: InviteRow)
    ensures r.usedCount == 0 && r.isActive
    ensures r.maxUses.Some? <==> TruthyNum(maxUses)
  {
    InviteRow(id, serverId, code, userId, OrNull(maxUses), expiresAt, 0, true)
  }

  /** The filter `.eq('server_id', serverId)` of the invite list. */
  function OfServer(serverId: Id): InviteRow -> bool {
    (inv: InviteRow) => inv.serverId == serverId
  }

  /**
   * A server's invites, newest first (`.order('created_at', { ascending: false })`; rows are
   * kept in insertion order, which is `created_at` order).
   */
  function InvitesNewestFirst(invites: seq<InviteRow>, serverId: Id): (r: seq<InviteRow>)
    ensures |r| <= |invites|
    ensures forall k :: 0 <= k < |r| ==> r[k] in invites && r[k].serverId == serverId
  {
    Reverse(Filter(invites, OfServer(serverId)))
  }

  /**
   * The list is complete: every row of the server is listed as often as the table holds it,
   * and no other row is.
   */
  lemma InvitesNewestFirstComplete(invites: seq<InviteRow>, serverId: Id)
    ensures var r := InvitesNewestFirst(invites, serverId);
      forall inv :: multiset(r)[inv] == if inv.serverId == serverId then multiset(invites)[inv] else 0
    ensures forall inv :: inv in invites && inv.serverId == serverId ==> inv in InvitesNewestFirst(invites, serverId)
  {
    var own := Filter(invites, OfServer(serverId));
    FilterMultiplicity(invites, OfServer(serverId));
    ReverseMultiset(own);
    var r := InvitesNewestFirst(invites, serverId);
    forall inv | inv in invites && inv.serverId == serverId ensures inv in r {
      assert multiset(r)[inv] > 0;
    }
  }

  /** The list is newest first: an earlier entry comes from a later position of the table. */
  lemma InvitesNewestFirstOrder(invites: seq<InviteRow>, serverId: Id)
    ensures var r := InvitesNewestFirst(invites, serverId);
      forall k, l :: 0 <= k < l < |r| ==>
        exists i, j :: 0 <= i < j < |invites| && invites[j] == r[k] && invites[i] == r[l]
  {
    var r := InvitesNewestFirst(invites, serverId);
    assert r == Reverse(Filter(invites, OfServer(serverId)));
    forall k, l | 0 <= k < l < |r|
      ensures exists i, j :: 0 <= i < j < |invites| && invites[j] == r[k] && invites[i] == r[l]
    {
      var i, j := ReversedFilterOrder(invites, OfServer(serverId), k, l);
    }
  }

  /** The rows the PATCH update matches: `.eq('id', inviteId).eq('created_by', userId)`. */
  predicate PatchMatches(inv: InviteRow, inviteId: Id, userId: Id) {
    inv.id == inviteId && inv.createdBy == userId
  }

  /** `update({ is_active })` on the matched rows; an absent value leaves them as they were. */
  function SetActive(invites: seq<InviteRow>, inviteId: Id, userId: Id, isActive: Option<bool>): (r: seq<InviteRow>)
    ensures |r| == |invites|
    ensures forall k :: 0 <= k < |r| && !PatchMatches(invites[k], inviteId, userId) ==> r[k] == invites[k]
    ensures forall k :: 0 <= k < |r| && PatchMatches(invites[k], inviteId, userId) ==>
      r[k] == if isActive.Some? then invites[k].(isActive := isActive.value) else invites[k]
  {
    seq(|invites|, k requires 0 <= k < |invites| =>
      if PatchMatches(invites[k], inviteId, userId) && isActive.Some? then invites[k].(isActive := isActive.value)
      else invites[k])
  }

  /** The number of rows the PATCH update matches. */
  function PatchMatchCount(invites: seq<InviteRow>, inviteId: Id, userId: Id): nat {
    Count(invites, (inv: InviteRow) => PatchMatches(inv, inviteId, userId))
  }
}
