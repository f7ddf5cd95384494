/**
 * The rows of the five tables the `discord-api` edge function works on, the requests it
 * receives and the responses it returns. Primary keys are opaque strings handed out by the
 * store; timestamps are integers (milliseconds).
 */
module EdgeRows {
  import opened Wrappers

  type Id = string

  /** A row of `servers`. */
  datatype ServerRow = ServerRow(
    id: Id, name: Option<string>, description: Option<string>, iconUrl: Option<string>, ownerId: Id)

  /** A row of `server_members`: one user's membership of one server, with its role. */
  datatype MemberRow = MemberRow(id: Id, serverId: Id, userId: Id, role: string)

  /** A row of `channels`; `kind` is the `type` column ("text" or "voice"). */
  datatype ChannelRow = ChannelRow(
    id: Id, serverId: Id, name: Option<string>, kind: string, position: Option<int>)

  /** A row of `messages`. */
  datatype MessageRow = MessageRow(id: Id, channelId: Id, userId: Id, content: string)

  /** A row of `server_invites`. */
  datatype InviteRow = InviteRow(
    id: Id, serverId: Id, code: string, createdBy: Id,
    maxUses: Option<int>, expiresAt: Option<int>, usedCount: int, isActive: bool)

  datatype HttpMethod = Get | Post | Patch | Options | OtherMethod(name: string)

  /** The fields handlers read from a JSON request body; None is an absent (or null) field. */
  datatype Body = Body(
    name: Option<string>, description: Option<string>, kind: Option<string>,
    content: Option<string>, serverId: Option<string>, inviteCode: Option<string>,
    query: Option<string>, maxUses: Option<int>, expiresAt: Option<int>, isActive: Option<bool>)

  /**
   * A request: its method, URL path, query parameters and body (None when the body is not
   * valid JSON, so that `req.json()` throws).
   */
  datatype Request = Request(
    httpMethod: HttpMethod, path: string, params: map<string, string>, body: Option<Body>)

  /** `url.searchParams.get(key)`: null when the parameter is absent. */
  function Param(req: Request, key: string): (r: Option<string>)
    ensures r.Some? <==> key in req.params
    ensures r.Some? ==> r.value == req.params[key]
  {
    if key in req.params then Some(req.params[key]) else None
  }

  /** A server of the caller together with the caller's role in it. */
  datatype ServerWithRole = ServerWithRole(server: ServerRow, role: string)

  /** One entry of a server search. */
  datatype SearchHit = SearchHit(
    id: Id, name: Option<string>, description: Option<string>, iconUrl: Option<string>,
    memberCount: nat, isMember: bool)

  /** The JSON body of a response. */
  datatype Payload =
    | NoContent
    | Error(message: string)
    | Internal
    | ServerList(servers: seq<ServerWithRole>)
    | CreatedServer(server: ServerRow)
    | ChannelList(channels: seq<ChannelRow>)
    | CreatedChannel(channel: ChannelRow)
    | MessageList(messages: seq<MessageRow>)
    | CreatedMessage(created: MessageRow)
    | CreatedMember(member: MemberRow)
    | SearchResults(hits: seq<SearchHit>)
    | Joined(member: MemberRow, server: ServerRow)
    | CreatedInvite(invite: InviteRow)
    | InviteList(invites: seq<InviteRow>)
    | UpdatedInvite(invite: InviteRow)

  datatype Response = Response(status: int, payload: Payload)

  /** An error thrown inside a handler, turned into a 500 by the catch-all. */
  const Thrown := Response(500, Internal)

  function Ok(p: Payload): Response {
    Response(200, p)
  }

  function Fail(status: int, message: string): Response {
    Response(status, Error(message))
  }

  const MethodNotAllowed := Fail(405, "Method not allowed")
}
