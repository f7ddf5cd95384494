/**
 * The `discord-api` edge function over an in-memory store: the five tables are fields that
 * the handlers append to or update, and `Serve` is the request entry point. Primary keys
 * the store would generate, the current time and the answers of the `generate_invite_code`
 * procedure are parameters.
 */
module EdgeStore {
  import opened Wrappers
  import opened Seqs
  import opened Text
  import opened EdgeRows
  import opened EdgeRouting
  import opened EdgeQueries

  predicate ServerExists(servers: seq<ServerRow>, id: Id) {
    exists k :: 0 <= k < |servers| && servers[k].id == id
  }

  predicate ChannelExists(channels: seq<ChannelRow>, id: Id) {
    exists k :: 0 <= k < |channels| && channels[k].id == id
  }

  /** The primary key of `servers`. */
  predicate ServersValid(servers: seq<ServerRow>) {
    forall i, j :: 0 <= i < j < |servers| ==> servers[i].id != servers[j].id
  }

  /** `server_members`: primary key, unique (server_id, user_id), server_id references `servers`. */
  predicate MembersValid(servers: seq<ServerRow>, members: seq<MemberRow>) {
    && (forall i, j :: 0 <= i < j < |members| ==> members[i].id != members[j].id)
    && UniqueMemberships(members)
    && (forall k :: 0 <= k < |members| ==> ServerExists(servers, members[k].serverId))
  }

  /** `channels`: primary key, server_id references `servers`. */
  predicate ChannelsValid(servers: seq<ServerRow>, channels: seq<ChannelRow>) {
    && (forall i, j :: 0 <= i < j < |channels| ==> channels[i].id != channels[j].id)
    && (forall k :: 0 <= k < |channels| ==> ServerExists(servers, channels[k].serverId))
  }

  /** `messages`: primary key, channel_id references `channels`. */
  predicate MessagesValid(channels: seq<ChannelRow>, messages: seq<MessageRow>) {
    && (forall i, j :: 0 <= i < j < |messages| ==> messages[i].id != messages[j].id)
    && (forall k :: 0 <= k < |messages| ==> ChannelExists(channels, messages[k].channelId))
  }

  /** `server_invites`: primary key, unique codes, server_id references `servers`. */
  predicate InvitesValid(servers: seq<ServerRow>, invites: seq<InviteRow>) {
    && UniqueInviteIds(invites)
    && UniqueCodes(invites)
    && (forall k :: 0 <= k < |invites| ==> ServerExists(servers, invites[k].serverId))
  }

  /** Adding a server keeps every reference to the existing ones valid. */
  lemma ServerAdded(servers: seq<ServerRow>, s: ServerRow, members: seq<MemberRow>, channels: seq<ChannelRow>, invites: seq<InviteRow>)
    requires MembersValid(servers, members) && ChannelsValid(servers, channels) && InvitesValid(servers, invites)
    ensures MembersValid(servers + [s], members) && ChannelsValid(servers + [s], channels) && InvitesValid(servers + [s], invites)
    ensures ServerExists(servers + [s], s.id)
  {
    var more := servers + [s];
    assert more[|servers|] == s;
    forall id | ServerExists(servers, id) ensures ServerExists(more, id) {
      var k :| 0 <= k < |servers| && servers[k].id == id;
      assert more[k] == servers[k];
    }
  }

  /** Adding channels keeps every message's reference valid. */
  lemma ChannelsAdded(channels: seq<ChannelRow>, added: seq<ChannelRow>, messages: seq<MessageRow>)
    requires MessagesValid(channels, messages)
    ensures MessagesValid(channels + added, messages)
  {
    forall id | ChannelExists(channels, id) ensures ChannelExists(channels + added, id) {
      var k :| 0 <= k < |channels| && channels[k].id == id;
      assert (channels + added)[k] == channels[k];
    }
  }

  /**
   * What answering the invite checks does to the member and invite tables: a refusal is
   * answered as it is and changes nothing; an admission adds one `member` row for the
   * invite's server, sets the invite's used_count to its old value plus one, and answers with
   * the new row and the server.
   */
  predicate JoinApplied(check: JoinCheck, userId: Id, key: Id, members0: seq<MemberRow>, invites0: seq<InviteRow>,
                        members: seq<MemberRow>, invites: seq<InviteRow>, resp: Response)
  {
    && (check.Refuse? ==> resp == check.response && members == members0 && invites == invites0)
    && (check.Admit? ==>
          && members == members0 + [MemberRow(key, check.server.id, userId, "member")]
          && invites == SetUsedCount(invites0, check.invite.id, check.invite.usedCount + 1)
          && resp == Ok(Joined(MemberRow(key, check.server.id, userId, "member"), check.server)))
  }

  class Database {
    var servers: seq<ServerRow>
    var members: seq<MemberRow>
    var channels: seq<ChannelRow>
    var messages: seq<MessageRow>
    var invites: seq<InviteRow>

    /** The constraints the store enforces: primary keys, unique memberships and codes, foreign keys. */
    predicate Valid()
      reads this
    {
      && ServersValid(servers)
      && MembersValid(servers, members)
      && ChannelsValid(servers, channels)
      && MessagesValid(channels, messages)
      && InvitesValid(servers, invites)
    }

    /** `id` is the key of no row yet. */
    predicate Unused(id: Id)
      reads this
    {
      && (forall k :: 0 <= k < |servers| ==> servers[k].id != id)
      && (forall k :: 0 <= k < |members| ==> members[k].id != id)
      && (forall k :: 0 <= k < |channels| ==> channels[k].id != id)
      && (forall k :: 0 <= k < |messages| ==> messages[k].id != id)
      && (forall k :: 0 <= k < |invites| ==> invites[k].id != id)
    }

    /** The keys the store would hand out: `n` distinct keys of no existing row. */
    predicate FreshKeys(keys: seq<Id>, n: nat)
      reads this
    {
      && |keys| >= n
      && (forall i, j :: 0 <= i < j < n ==> keys[i] != keys[j])
      && (forall i :: 0 <= i < n ==> Unused(keys[i]))
    }

    constructor ()
      ensures Valid()
      ensures servers == [] && members == [] && channels == [] && messages == [] && invites == []
    {
      servers, members, channels, messages, invites := [], [], [], [], [];
    }

    /** Appends a server row under a fresh key. */
    method InsertServer(row: ServerRow)
      requires Valid() && Unused(row.id)
      modifies this
      ensures Valid() && ServerExists(servers, row.id)
      ensures servers == old(servers) + [row]
      ensures members == old(members) && channels == old(channels)
      ensures messages == old(messages) && invites == old(invites)
      ensures forall id :: old(Unused(id)) && id != row.id ==> Unused(id)
    {
      ServerAdded(servers, row, members, channels, invites);
      servers := servers + [row];
    }

    /** Appends a membership row; the caller has checked the constraints it must meet. */
    method InsertMember(row: MemberRow)
      requires Valid() && Unused(row.id)
      requires ServerExists(servers, row.serverId) && !HasMembership(members, row.serverId, row.userId)
      modifies this
      ensures Valid()
      ensures members == old(members) + [row]
      ensures servers == old(servers) && channels == old(channels)
      ensures messages == old(messages) && invites == old(invites)
      ensures forall id :: old(Unused(id)) && id != row.id ==> Unused(id)
    {
      members := members + [row];
      assert forall k :: 0 <= k < |old(members)| ==> members[k] == old(members)[k];
    }

    /** Appends channel rows of existing servers under fresh, distinct keys. */
    method InsertChannels(rows: seq<ChannelRow>)
      requires Valid()
      requires forall k :: 0 <= k < |rows| ==> Unused(rows[k].id) && ServerExists(servers, rows[k].serverId)
      requires forall i, j :: 0 <= i < j < |rows| ==> rows[i].id != rows[j].id
      modifies this
      ensures Valid()
      ensures channels == old(channels) + rows
      ensures servers == old(servers) && members == old(members)
      ensures messages == old(messages) && invites == old(invites)
    {
      ChannelsAdded(channels, rows, messages);
      channels := channels + rows;
    }

    /** Appends a message row of an existing channel under a fresh key. */
    method InsertMessage(row: MessageRow)
      requires Valid() && Unused(row.id) && ChannelExists(channels, row.channelId)
      modifies this
      ensures Valid()
      ensures messages == old(messages) + [row]
      ensures servers == old(servers) && members == old(members)
      ensures channels == old(channels) && invites == old(invites)
    {
      messages := messages + [row];
      assert forall k :: 0 <= k < |old(messages)| ==> messages[k] == old(messages)[k];
    }

    /** Appends an invite row of an existing server whose code no invite has. */
    method InsertInvite(row: InviteRow)
      requires Valid() && Unused(row.id) && ServerExists(servers, row.serverId)
      requires forall k :: 0 <= k < |invites| ==> invites[k].code != row.code
      modifies this
      ensures Valid()
      ensures invites == old(invites) + [row]
      ensures servers == old(servers) && members == old(members)
      ensures channels == old(channels) && messages == old(messages)
    {
      invites := invites + [row];
      assert forall k :: 0 <= k < |old(invites)| ==> invites[k] == old(invites)[k];
    }

    /** Rewrites the invite rows with a function that keeps their key, code and server. */
    method ReplaceInvites(updated: seq<InviteRow>)
      requires Valid() && |updated| == |invites|
      requires forall k :: 0 <= k < |invites| ==>
        updated[k].id == invites[k].id && updated[k].code == invites[k].code && updated[k].serverId == invites[k].serverId
      modifies this
      ensures Valid()
      ensures invites == updated
      ensures servers == old(servers) && members == old(members)
      ensures channels == old(channels) && messages == old(messages)
    {
      invites := updated;
    }

    /** `handleServers`: GET lists the caller's servers; POST creates a server with its owner and two channels. */
    method HandleServers(req: Request, userId: Id, keys: seq<Id>) returns (resp: Response)
      requires Valid() && FreshKeys(keys, 4)
      modifies this
      ensures Valid()
      ensures req.httpMethod == Get ==>
        resp == Ok(ServerList(ServersOfUser(servers, members, userId))) && unchanged(this)
      ensures req.httpMethod == Post && req.body.None? ==> resp == Thrown && unchanged(this)
      ensures req.httpMethod == Post && req.body.Some? ==>
        var server := ServerRow(keys[0], req.body.value.name, req.body.value.description, None, userId);
        && servers == old(servers) + [server]
        && members == old(members) + [MemberRow(keys[1], keys[0], userId, "admin")]
        && channels == old(channels) + DefaultChannels(keys[0], keys[2], keys[3])
        && messages == old(messages) && invites == old(invites)
        && resp == Ok(CreatedServer(server))
      ensures req.httpMethod != Get && req.httpMethod != Post ==> resp == MethodNotAllowed && unchanged(this)
    {
      if req.httpMethod == Get {
        return Ok(ServerList(ServersOfUser(servers, members, userId)));
      }
      if req.httpMethod == Post {
        if req.body.None? {
          return Thrown;
        }
        var body := req.body.value;
        var server := ServerRow(keys[0], body.name, body.description, None, userId);
        InsertServer(server);
        assert !HasMembership(members, keys[0], userId) by {
          forall k | 0 <= k < |members| ensures members[k].serverId != keys[0] {
            assert ServerExists(old(servers), members[k].serverId);
          }
        }
        InsertMember(MemberRow(keys[1], keys[0], userId, "admin"));
        InsertChannels(DefaultChannels(keys[0], keys[2], keys[3]));
        return Ok(CreatedServer(server));
      }
      return MethodNotAllowed;
    }

    /** `handleChannels`: a missing server_id is rejected before the method is looked at. */
    method HandleChannels(req: Request, userId: Id, key: Id) returns (resp: Response)
      requires Valid() && Unused(key)
      modifies this
      ensures Valid()
      ensures !Truthy(Param(req, "server_id")) ==> resp == Fail(400, "Server ID required") && unchanged(this)
      ensures Truthy(Param(req, "server_id")) ==>
        var serverId := Param(req, "server_id").value;
        && (req.httpMethod == Get ==> resp == Ok(ChannelList(ChannelsOf(channels, serverId))) && unchanged(this))
        && (req.httpMethod == Post && req.body.None? ==> resp == Thrown && unchanged(this))
        && (req.httpMethod == Post && req.body.Some? && !MayCreateChannels(RoleOf(members, serverId, userId)) ==>
              resp == Fail(403, "Insufficient permissions") && unchanged(this))
        && (req.httpMethod == Post && req.body.Some? && MayCreateChannels(RoleOf(members, serverId, userId)) ==>
              var channel := ChannelRow(key, serverId, req.body.value.name, req.body.value.kind.GetOr("text"), None);
              && channels == old(channels) + [channel]
              && servers == old(servers) && members == old(members)
              && messages == old(messages) && invites == old(invites)
              && resp == Ok(CreatedChannel(channel)))
        && (req.httpMethod != Get && req.httpMethod != Post ==> resp == MethodNotAllowed && unchanged(this))
    {
      var serverId := Param(req, "server_id");
      if !Truthy(serverId) {
        return Fail(400, "Server ID required");
      }
      if req.httpMethod == Get {
        return Ok(ChannelList(ChannelsOf(channels, serverId.value)));
      }
      if req.httpMethod == Post {
        if req.body.None? {
          return Thrown;
        }
        var body := req.body.value;
        var role := RoleOf(members, serverId.value, userId);
        if !MayCreateChannels(role) {
          return Fail(403, "Insufficient permissions");
        }
        var k :| 0 <= k < |members| && members[k].serverId == serverId.value && members[k].userId == userId;
        assert ServerExists(servers, serverId.value);
        var channel := ChannelRow(key, serverId.value, body.name, body.kind.GetOr("text"), None);
        InsertChannels([channel]);
        return Ok(CreatedChannel(channel));
      }
      return MethodNotAllowed;
    }

    /** `handleMessages`: a missing channel_id is rejected before the method is looked at. */
    method HandleMessages(req: Request, userId: Id, key: Id) returns (resp: Response)
      requires Valid() && Unused(key)
      modifies this
      ensures Valid()
      ensures !Truthy(Param(req, "channel_id")) ==> resp == Fail(400, "Channel ID required") && unchanged(this)
      ensures Truthy(Param(req, "channel_id")) ==>
        var channelId := Param(req, "channel_id").value;
        var limit := MessageLimit(Param(req, "limit"));
        && (req.httpMethod == Get && limit.Some? && limit.value >= 0 ==>
              resp == Ok(MessageList(RecentMessages(messages, channelId, limit.value))) && unchanged(this))
        && (req.httpMethod == Get && (limit.None? || limit.value < 0) ==> resp == Thrown && unchanged(this))
        && (req.httpMethod == Post && req.body.None? ==> resp == Thrown && unchanged(this))
        && (req.httpMethod == Post && req.body.Some? && BlankField(req.body.value.content) ==>
              resp == Fail(400, "Message content required") && unchanged(this))
        && (req.httpMethod == Post && req.body.Some? && !BlankField(req.body.value.content) ==>
              if ChannelExists(channels, channelId) then
                var message := MessageRow(key, channelId, userId, Trim(req.body.value.content.value));
                && messages == old(messages) + [message]
                && servers == old(servers) && members == old(members)
                && channels == old(channels) && invites == old(invites)
                && resp == Ok(CreatedMessage(message))
              else resp == Thrown && unchanged(this))
        && (req.httpMethod != Get && req.httpMethod != Post ==> resp == MethodNotAllowed && unchanged(this))
    {
      var channelId := Param(req, "channel_id");
      if !Truthy(channelId) {
        return Fail(400, "Channel ID required");
      }
      if req.httpMethod == Get {
        var limit := MessageLimit(Param(req, "limit"));
        if limit.None? || limit.value < 0 {
          return Thrown;
        }
        return Ok(MessageList(RecentMessages(messages, channelId.value, limit.value)));
      }
      if req.httpMethod == Post {
        if req.body.None? {
          return Thrown;
        }
        var content := req.body.value.content;
        if !Truthy(content) || IsBlank(content.value) {
          return Fail(400, "Message content required");
        }
        if !ChannelExists(channels, channelId.value) {
          return Thrown;
        }
        var message := MessageRow(key, channelId.value, userId, Trim(content.value));
        InsertMessage(message);
        return Ok(CreatedMessage(message));
      }
      return MethodNotAllowed;
    }

    /**
     * `handleJoinServer`: inserts a `member` row; a second membership violates the unique
     * constraint (23505) and gives 409, any other failed insert is thrown.
     */
    method HandleJoinServer(req: Request, userId: Id, key: Id) returns (resp: Response)
      requires Valid() && Unused(key)
      modifies this
      ensures Valid()
      ensures req.httpMethod != Post ==> resp == MethodNotAllowed && unchanged(this)
      ensures req.httpMethod == Post && (req.body.None? || req.body.value.serverId.None?) ==>
        resp == Thrown && unchanged(this)
      ensures req.httpMethod == Post && req.body.Some? && req.body.value.serverId.Some? ==>
        var serverId := req.body.value.serverId.value;
        if HasMembership(old(members), serverId, userId) then
          resp == Fail(409, "Already a member of this server") && unchanged(this)
        else if !ServerExists(old(servers), serverId) then
          resp == Thrown && unchanged(this)
        else
          && members == old(members) + [MemberRow(key, serverId, userId, "member")]
          && resp == Ok(CreatedMember(MemberRow(key, serverId, userId, "member")))
          && servers == old(servers) && channels == old(channels)
          && messages == old(messages) && invites == old(invites)
    {
      if req.httpMethod != Post {
        return MethodNotAllowed;
      }
      if req.body.None? || req.body.value.serverId.None? {
        return Thrown;
      }
      var serverId := req.body.value.serverId.value;
      if HasMembership(members, serverId, userId) {
        return Fail(409, "Already a member of this server");
      }
      if !ServerExists(servers, serverId) {
        return Thrown;
      }
      var member := MemberRow(key, serverId, userId, "member");
      InsertMember(member);
      return Ok(CreatedMember(member));
    }

    /** `handleSearchServers`: reads only; the counts come from the reduce over membership rows. */
    method HandleSearchServers(req: Request, userId: Id) returns (resp: Response)
      ensures req.httpMethod != Post ==> resp == MethodNotAllowed
      ensures req.httpMethod == Post && req.body.None? ==> resp == Thrown
      ensures req.httpMethod == Post && req.body.Some? ==>
        resp == Ok(SearchResults(ServerSearch(servers, members, userId, req.body.value.query)))
    {
      if req.httpMethod != Post {
        return MethodNotAllowed;
      }
      if req.body.None? {
        return Thrown;
      }
      var query := req.body.value.query;
      if BlankField(query) {
        return Ok(SearchResults([]));
      }
      var ids := SearchIds(servers, query);
      var counts := CountMembers(members, ids);
      SearchHitsFromCounts(servers, counts, members, userId, query);
      return Ok(SearchResults(SearchHits(servers, counts, members, userId, query)));
    }

    /** The two writes of a redeemed invite: the new membership, then used_count + 1. */
    method RedeemInvite(inv: InviteRow, server: ServerRow, userId: Id, key: Id) returns (member: MemberRow)
      requires Valid() && Unused(key)
      requires server in servers && !HasMembership(members, server.id, userId)
      modifies this
      ensures Valid()
      ensures member == MemberRow(key, server.id, userId, "member")
      ensures members == old(members) + [member]
      ensures invites == SetUsedCount(old(invites), inv.id, inv.usedCount + 1)
      ensures servers == old(servers) && channels == old(channels) && messages == old(messages)
    {
      assert ServerExists(servers, server.id) by {
        var k :| 0 <= k < |servers| && servers[k] == server;
      }
      member := MemberRow(key, server.id, userId, "member");
      InsertMember(member);
      ReplaceInvites(SetUsedCount(invites, inv.id, inv.usedCount + 1));
    }

    /**
     * `handleJoinByInvite`: the ordered checks, then one `member` row for the invite's server
     * and the invite's used_count set to its old value plus one.
     */
    method HandleJoinByInvite(req: Request, userId: Id, now: int, key: Id) returns (resp: Response)
      requires Valid() && Unused(key)
      modifies this
      ensures Valid()
      ensures servers == old(servers) && channels == old(channels) && messages == old(messages)
      ensures req.httpMethod != Post ==> resp == MethodNotAllowed && unchanged(this)
      ensures req.httpMethod == Post && req.body.None? ==> resp == Thrown && unchanged(this)
      ensures req.httpMethod == Post && req.body.Some? ==>
        JoinApplied(JoinByInviteCheck(old(invites), old(servers), old(members), userId, req.body.value.inviteCode, now),
                    userId, key, old(members), old(invites), members, invites, resp)
    {
      if req.httpMethod != Post {
        return MethodNotAllowed;
      }
      if req.body.None? {
        return Thrown;
      }
      resp := JoinWithCode(req.body.value.inviteCode, userId, now, key);
    }

    /** The part of `handleJoinByInvite` after the body is read. */
    method JoinWithCode(code: Option<string>, userId: Id, now: int, key: Id) returns (resp: Response)
      requires Valid() && Unused(key)
      modifies this
      ensures Valid()
      ensures servers == old(servers) && channels == old(channels) && messages == old(messages)
      ensures JoinApplied(JoinByInviteCheck(old(invites), old(servers), old(members), userId, code, now),
                          userId, key, old(members), old(invites), members, invites, resp)
    {
      var check := JoinByInviteCheck(invites, servers, members, userId, code, now);
      JoinByInviteAdmitFacts(invites, servers, members, userId, code, now);
      resp := ApplyJoinCheck(check, userId, key);
    }

    /** A refusal of the checks is answered as it is, an admission redeems the invite. */
    method ApplyJoinCheck(check: JoinCheck, userId: Id, key: Id) returns (resp: Response)
      requires Valid() && Unused(key)
      requires check.Admit? ==> check.server in servers && !HasMembership(members, check.server.id, userId)
      modifies this
      ensures Valid()
      ensures servers == old(servers) && channels == old(channels) && messages == old(messages)
      ensures JoinApplied(check, userId, key, old(members), old(invites), members, invites, resp)
    {
      if check.Refuse? {
        return check.response;
      }
      var member := RedeemInvite(check.invite, check.server, userId, key);
      return Ok(Joined(member, check.server));
    }

    /**
     * `handleCreateInvite`: checks the server id and the caller's membership, generates a code
     * no invite has (giving up after ten taken codes) and inserts the invite.
     */
    method HandleCreateInvite(req: Request, userId: Id, key: Id, rpc: seq<Option<string>>) returns (resp: Response)
      requires Valid() && Unused(key) && |rpc| >= MaxCodeAttempts
      modifies this
      ensures Valid()
      ensures servers == old(servers) && members == old(members)
      ensures channels == old(channels) && messages == old(messages)
      ensures req.httpMethod != Post ==> resp == MethodNotAllowed && unchanged(this)
      ensures req.httpMethod == Post && req.body.None? ==> resp == Thrown && unchanged(this)
      ensures req.httpMethod == Post && req.body.Some? && !Truthy(req.body.value.serverId) ==>
        resp == Fail(400, "Server ID required") && unchanged(this)
      ensures req.httpMethod == Post && req.body.Some? && Truthy(req.body.value.serverId) ==>
        var serverId := req.body.value.serverId.value;
        && (RoleOf(old(members), serverId, userId).None? ==>
              resp == Fail(403, "Not a member of this server") && unchanged(this))
        && (RoleOf(old(members), serverId, userId).Some? && AllTaken(old(invites), rpc, MaxCodeAttempts) ==>
              resp == Fail(500, "Failed to generate unique invite code") && unchanged(this))
        && (RoleOf(old(members), serverId, userId).Some? ==>
              forall k :: FreeAt(old(invites), rpc, k) ==>
                var invite := NewInvite(key, serverId, rpc[k].value, userId, req.body.value.maxUses, req.body.value.expiresAt);
                invites == old(invites) + [invite] && resp == Ok(CreatedInvite(invite)))
        && (RoleOf(old(members), serverId, userId).Some? ==>
              forall k :: FailedAt(old(invites), rpc, k) ==>
                resp == Thrown && invites == old(invites))
        && (resp.status == 200 ==>
              exists code ::
                && (forall i :: 0 <= i < |old(invites)| ==> old(invites)[i].code != code)
                && invites == old(invites) + [NewInvite(key, serverId, code, userId, req.body.value.maxUses, req.body.value.expiresAt)]
                && resp == Ok(CreatedInvite(invites[|invites| - 1])))
      ensures resp.status != 200 ==> unchanged(this)
    {
      if req.httpMethod != Post {
        return MethodNotAllowed;
      }
      if req.body.None? {
        return Thrown;
      }
      var body := req.body.value;
      if !Truthy(body.serverId) {
        return Fail(400, "Server ID required");
      }
      var serverId := body.serverId.value;
      if RoleOf(members, serverId, userId).None? {
        return Fail(403, "Not a member of this server");
      }
      var outcome := GenerateInviteCode(invites, rpc);
      match outcome {
        case RpcFailed =>
          return Thrown;
        case Collided =>
          return Fail(500, "Failed to generate unique invite code");
        case Generated(code) =>
          CodeTakenIff(invites, code);
          var k :| 0 <= k < |members| && members[k].serverId == serverId && members[k].userId == userId;
          assert ServerExists(servers, serverId);
          var invite := NewInvite(key, serverId, code, userId, body.maxUses, body.expiresAt);
          InsertInvite(invite);
          return Ok(CreatedInvite(invite));
      }
    }

    /**
     * `handleInvites`: GET lists a server's invites for its members, newest first. PATCH sets
     * `is_active` on the rows whose id is the last path segment and whose creator is the
     * caller; `.single()` answers only when exactly one row matched (otherwise the update is
     * rolled back and the error thrown).
     */
    method HandleInvites(req: Request, userId: Id) returns (resp: Response)
      requires Valid()
      modifies this
      ensures Valid()
      ensures servers == old(servers) && members == old(members)
      ensures channels == old(channels) && messages == old(messages)
      ensures req.httpMethod == Get ==>
        && unchanged(this)
        && (!Truthy(Param(req, "server_id")) ==> resp == Fail(400, "Server ID required"))
        && (Truthy(Param(req, "server_id")) && RoleOf(members, Param(req, "server_id").value, userId).None? ==>
              resp == Fail(403, "Not a member of this server"))
        && (Truthy(Param(req, "server_id")) && RoleOf(members, Param(req, "server_id").value, userId).Some? ==>
              resp == Ok(InviteList(InvitesNewestFirst(invites, Param(req, "server_id").value))))
      ensures req.httpMethod == Patch ==>
        if LastSegment(req.path).None? then resp == Fail(400, "Invite ID required") && unchanged(this)
        else if req.body.None? then resp == Thrown && unchanged(this)
        else
          var inviteId := LastSegment(req.path).value;
          if PatchMatchCount(old(invites), inviteId, userId) == 1 then
            && invites == SetActive(old(invites), inviteId, userId, req.body.value.isActive)
            && resp.status == 200 && resp.payload.UpdatedInvite?
            && resp.payload.invite in invites && PatchMatches(resp.payload.invite, inviteId, userId)
          else resp == Thrown && unchanged(this)
      ensures req.httpMethod != Get && req.httpMethod != Patch ==> resp == MethodNotAllowed && unchanged(this)
    {
      var serverId := Param(req, "server_id");
      if req.httpMethod == Get {
        if !Truthy(serverId) {
          return Fail(400, "Server ID required");
        }
        if RoleOf(members, serverId.value, userId).None? {
          return Fail(403, "Not a member of this server");
        }
        return Ok(InviteList(InvitesNewestFirst(invites, serverId.value)));
      }
      if req.httpMethod == Patch {
        var inviteId := LastSegment(req.path);
        if inviteId.None? {
          return Fail(400, "Invite ID required");
        }
        if req.body.None? {
          return Thrown;
        }
        if PatchMatchCount(invites, inviteId.value, userId) != 1 {
          return Thrown;
        }
        var j := PatchedIndex(invites, inviteId.value, userId);
        ReplaceInvites(SetActive(invites, inviteId.value, userId, req.body.value.isActive));
        return Ok(UpdatedInvite(invites[j]));
      }
      return MethodNotAllowed;
    }

    /**
     * The whole function: preflight, authentication (`user` is what `auth.getUser()` gives),
     * routing on the last path segment, then the handler. `keys` are the primary keys the
     * store would hand out, `rpc` the answers of `generate_invite_code`.
     */
    method Serve(req: Request, user: Option<Id>, now: int, keys: seq<Id>, rpc: seq<Option<string>>) returns (resp: Response)
      requires Valid() && FreshKeys(keys, 4) && |rpc| >= MaxCodeAttempts
      modifies this
      ensures Valid()
      ensures RouteOf(req.httpMethod, req.path, user) == Preflight ==> resp == Response(200, NoContent) && unchanged(this)
      ensures RouteOf(req.httpMethod, req.path, user) == Unauthorized ==> resp == Fail(401, "Unauthorized") && unchanged(this)
      ensures RouteOf(req.httpMethod, req.path, user) == InvalidAction ==> resp == Fail(400, "Invalid action") && unchanged(this)
      ensures RouteOf(req.httpMethod, req.path, user).Dispatch? && req.httpMethod == Get ==> unchanged(this)
      ensures user.Some? && RouteOf(req.httpMethod, req.path, user) == Dispatch(Servers, user.value) && req.httpMethod == Get ==>
        resp == Ok(ServerList(ServersOfUser(servers, members, user.value)))
      ensures user.Some? && RouteOf(req.httpMethod, req.path, user) == Dispatch(SearchServers, user.value) ==>
        && unchanged(this)
        && (req.httpMethod == Post && req.body.Some? ==>
              resp == Ok(SearchResults(ServerSearch(servers, members, user.value, req.body.value.query))))
      ensures user.Some? && RouteOf(req.httpMethod, req.path, user) == Dispatch(JoinByInvite, user.value)
              && req.httpMethod == Post && req.body.Some? ==>
        JoinApplied(JoinByInviteCheck(old(invites), old(servers), old(members), user.value, req.body.value.inviteCode, now),
                    user.value, keys[0], old(members), old(invites), members, invites, resp)
      ensures && RouteOf(req.httpMethod, req.path, user).Dispatch?
              && RouteOf(req.httpMethod, req.path, user).action == Invites
              && req.httpMethod == Patch
              && (forall k :: 0 <= k < |old(invites)| ==> old(invites)[k].id != "invites")
              ==> resp == Thrown && unchanged(this)
    {
      match RouteOf(req.httpMethod, req.path, user) {
        case Preflight =>
          return Response(200, NoContent);
        case Unauthorized =>
          return Fail(401, "Unauthorized");
        case InvalidAction =>
          return Fail(400, "Invalid action");
        case Dispatch(action, userId) =>
          resp := RunHandler(action, req, userId, now, keys, rpc);
      }
    }

    /** The `switch (action)` once a request is authenticated and its last segment names `action`. */
    method RunHandler(action: Action, req: Request, userId: Id, now: int, keys: seq<Id>, rpc: seq<Option<string>>)
      returns (resp: Response)
      requires Valid() && FreshKeys(keys, 4) && |rpc| >= MaxCodeAttempts
      requires LastSegment(req.path) == Some(Name(action))
      modifies this
      ensures Valid()
      ensures req.httpMethod == Get ==> unchanged(this)
      ensures action == Servers && req.httpMethod == Get ==> resp == Ok(ServerList(ServersOfUser(servers, members, userId)))
      ensures action == SearchServers ==>
        && unchanged(this)
        && (req.httpMethod == Post && req.body.Some? ==>
              resp == Ok(SearchResults(ServerSearch(servers, members, userId, req.body.value.query))))
      ensures action == JoinByInvite && req.httpMethod == Post && req.body.Some? ==>
        JoinApplied(JoinByInviteCheck(old(invites), old(servers), old(members), userId, req.body.value.inviteCode, now),
                    userId, keys[0], old(members), old(invites), members, invites, resp)
      ensures && action == Invites && req.httpMethod == Patch
              && (forall k :: 0 <= k < |old(invites)| ==> old(invites)[k].id != "invites")
              ==> resp == Thrown && unchanged(this)
    {
      match action {
        case Servers => resp := HandleServers(req, userId, keys);
        case Channels => resp := HandleChannels(req, userId, keys[0]);
        case Messages => resp := HandleMessages(req, userId, keys[0]);
        case JoinServer => resp := HandleJoinServer(req, userId, keys[0]);
        case JoinByInvite => resp := HandleJoinByInvite(req, userId, now, keys[0]);
        case CreateInvite => resp := HandleCreateInvite(req, userId, keys[0], rpc);
        case Invites =>
          if req.httpMethod == Patch && forall k :: 0 <= k < |invites| ==> invites[k].id != "invites" {
            NoPatchMatch(invites, "invites", userId);
          }
          resp := HandleInvites(req, userId);
        case SearchServers => resp := HandleSearchServers(req, userId);
      }
    }
  }

  /** The position of the first row the PATCH update matches. */
  function PatchedIndex(invites: seq<InviteRow>, inviteId: Id, userId: Id): (j: nat)
    requires PatchMatchCount(invites, inviteId, userId) > 0
    ensures j < |invites| && PatchMatches(invites[j], inviteId, userId)
  {
    if PatchMatches(invites[0], inviteId, userId) then 0
    else
      assert PatchMatchCount(invites[1..], inviteId, userId) > 0;
      1 + PatchedIndex(invites[1..], inviteId, userId)
  }

  /** When no invite has the id, the PATCH update matches nothing. */
  lemma NoPatchMatch(invites: seq<InviteRow>, inviteId: Id, userId: Id)
    requires forall k :: 0 <= k < |invites| ==> invites[k].id != inviteId
    ensures PatchMatchCount(invites, inviteId, userId) == 0
  {
    CountPositiveIff(invites, (inv: InviteRow) => PatchMatches(inv, inviteId, userId));
  }
}
