# garnet-gather core, modelled in Dafny

garnet-gather is a Discord-style chat client. Its server side is a Supabase edge function,
`discord-api`. The client adds a Spacebar gateway client, a WebRTC voice layer and a set of
React components. This project models the sequential logic inside that code and proves
properties of it. The modules are:

- **EdgeRows, EdgeRouting, EdgeQueries, EdgeStore**: the `discord-api` edge function.
  - Routing on the last path segment, and the early-return validation of the eight handlers.
  - Each of the five tables (`servers`, `server_members`, `channels`, `messages`,
    `server_invites`) is a sequence of rows in insertion order. The tables are fields of the
    class `Database`, and the handlers are methods that append rows to them or update them.
  - Keys the store would generate, the clock and the answers of the `generate_invite_code`
    procedure are parameters.
- **Gateway**: `SpacebarClient`.
  - Every transition is a function on a `ClientState` record, and the class's methods apply
    those functions in place.
  - A socket is the list of payloads passed to its `send`.
  - An interval is a handle into a table of live timers, so an interval that is never
    cleared stays visible.
  - Registered handlers are opaque ids; `emit` logs one invocation per handler.
- **Media**: tracks, streams, peer connections, data channels and audio elements, as small
  classes with the flags the voice code changes.
- **VoiceManager**: `WebRTCVoiceManager`. Its callbacks are recorded as report lists, and
  the hook that owns the manager replays them.
- **PeerConnections**: the peer and audio-element maps of `useWebRTCConnections`.
  - A ghost set `created` collects every connection the hook ever made.
  - The class invariant says that every such connection is either in the map or closed.
- **Volume, SpacebarVoice, WebRTCVoice**: the two voice hooks.
  - The Spacebar hook's transitions are record-to-record functions, paired with the gateway
    client's state.
  - The WebRTC hook is a class over the manager.
- **InviteStatus, JoinDialog, ServerSearch, FriendsFilter, ChatView, IndexPage**: the pure
  helpers of the components:
  - invite badges and options;
  - extracting a code from an invite link;
  - updating search results after a join;
  - the friend filter;
  - grouping message headers;
  - switching server and channel.
- **Wrappers, Seqs, Text**: the JavaScript semantics the rest relies on, over sequences of
  characters:
  - truthiness;
  - `filter` and `reverse`;
  - `trim`, case mapping, `includes`, `replace`, `split`/`pop`;
  - number-to-string conversion and `parseInt`.

Timestamps are integers in milliseconds. Strings are `seq<char>`.

## Model

| member | source | states |
|---|---|---|
| Wrappers.OrNull | supabase/functions/discord-api/index.ts:693-694 | `n \|\| null` is null exactly for an absent or zero number, and is otherwise the number itself |
| Seqs.Filter | src/components/DirectMessagesArea.tsx:37-43 | the result is no longer than the input; it holds exactly the input's elements that satisfy the predicate |
| Seqs.FilterAppend | src/components/DirectMessagesArea.tsx:37-43 | filtering a concatenation filters each part in place, so order is kept |
| Seqs.FilterIdempotent | src/components/DirectMessagesArea.tsx:37-43 | filtering twice with the same predicate is filtering once |
| Seqs.FilterMultiplicity | supabase/functions/discord-api/index.ts:748-757 | the filter keeps each satisfying element as often as the input holds it, and no other |
| Seqs.FilterKeepsOrder | supabase/functions/discord-api/index.ts:748-757 | two entries of the filter come from two positions of the input in the same order |
| Seqs.ReversedFilterOrder | supabase/functions/discord-api/index.ts:748-757 | after reversing, an earlier entry comes from a later position of the input |
| Seqs.ReverseMultiset | supabase/functions/discord-api/index.ts:306 | reversing keeps every element as often as it was there |
| Seqs.Reverse | supabase/functions/discord-api/index.ts:306 | same length, element i is element n-1-i of the input |
| Seqs.Take | supabase/functions/discord-api/index.ts:298 | `.limit(n)` keeps a prefix of length min(n, length) |
| Seqs.CountIsFilterLength | supabase/functions/discord-api/index.ts:455-458 | a count is the length of the filtered list |
| Seqs.CountAppend | supabase/functions/discord-api/index.ts:455-458 | counting distributes over concatenation |
| Seqs.CountPositiveIff | supabase/functions/discord-api/index.ts:455-458 | a count is positive iff some element satisfies the predicate |
| Text.TrimStart | supabase/functions/discord-api/index.ts:315 | the result is a suffix whose first character is not white space, and everything removed was white space |
| Text.TrimEnd | supabase/functions/discord-api/index.ts:315 | the result is a prefix whose last character is not white space, and everything removed was white space |
| Text.Trim | supabase/functions/discord-api/index.ts:330 | `trim()` is a slice of the input with only white space cut at both ends, and it neither starts nor ends in white space |
| Text.BlankIffAllSpace | supabase/functions/discord-api/index.ts:315 | `!s \|\| s.trim().length === 0` holds iff every character is white space |
| Text.TrimIdempotent | src/components/JoinServerDialog.tsx:41 | trimming twice is trimming once |
| Text.TrimUntouched | src/components/JoinServerDialog.tsx:41 | a string that neither starts nor ends in white space is its own trim |
| Text.ToLower | src/components/DirectMessagesArea.tsx:38-39 | `toLowerCase` maps every character, keeping the length |
| Text.ToUpper | supabase/functions/discord-api/index.ts:520 | `toUpperCase` maps every character, keeping the length |
| Text.LowerOfUpper | src/components/DirectMessagesArea.tsx:38-39 | lower-casing an upper-cased string gives the lower-cased original |
| Text.LowerIdempotent | src/components/DirectMessagesArea.tsx:38-39 | lower-casing twice is lower-casing once |
| Text.Includes | src/components/DirectMessagesArea.tsx:38-40 | `includes` holds iff the pattern occurs at some position |
| Text.IncludesTrivial | src/components/DirectMessagesArea.tsx:38-40 | every string includes the empty string and itself |
| Text.OccursShift | src/lib/spacebar.ts:89 | an occurrence at k is an occurrence at k-1 of the tail |
| Text.ReplaceFirst | src/lib/spacebar.ts:89 | `replace(p, q)` leaves a string without p unchanged, and otherwise splices q in at the first occurrence of p |
| Text.IncludesStep | src/lib/spacebar.ts:89 | a pattern that does not start the string is included iff it is included in the tail |
| Text.ReplaceFirstStep | src/lib/spacebar.ts:89 | the first occurrence in the tail, shifted by one, is the first occurrence in the string |
| Text.ReplaceFirstAtStart | src/lib/spacebar.ts:89 | a string that starts with p has that p replaced |
| Text.NatToString | src/components/DirectMessagesArea.tsx:40 | the decimal text of a natural number is non-empty and all digits |
| Text.IntToString | src/components/ServerInviteManager.tsx:259-262 | `String(n)` is an optional minus sign followed by digits |
| Text.LeadingDigits | src/components/ServerInviteManager.tsx:79 | the longest all-digit prefix |
| Text.LeadingHexDigits | src/components/ServerInviteManager.tsx:79 | the longest all-hex-digit prefix |
| Text.ParseInt | src/components/ServerInviteManager.tsx:71 | `parseInt` skips leading white space, reads a sign and a decimal (or 0x hexadecimal) prefix, and is NaN (None) exactly when there is no digit |
| Text.DigitsValueOfNatToString | src/components/ServerInviteManager.tsx:259-262 | the value of a number's decimal text is the number |
| Text.LeadingDigitsOfDigits | src/components/ServerInviteManager.tsx:259-262 | an all-digit string is its own digit prefix |
| Text.ParseIntOfIntToString | src/components/ServerInviteManager.tsx:259-262 | `parseInt(String(n)) == n` for every integer |
| Text.IndexOf | src/hooks/useWebRTCVoice.ts:77 | the first position of a character that occurs |
| Text.IndexOfUnique | src/hooks/useWebRTCVoice.ts:77 | a position holding c with no c before it is the first position |
| Text.Split | src/components/JoinServerDialog.tsx:43 | `split(sep)` gives at least one piece, and no piece contains the separator |
| Text.JoinSplit | src/components/JoinServerDialog.tsx:43 | joining the pieces with the separator gives back the string |
| Text.SplitWithoutSeparator | src/components/JoinServerDialog.tsx:43 | a string without the separator is one piece |
| Text.SplitAppend | src/components/JoinServerDialog.tsx:43 | splitting `a + sep + b` is splitting a, then splitting b |
| Text.LastIndexOf | src/components/JoinServerDialog.tsx:43 | the position of the last occurrence of a character that occurs: it holds the character and none follows |
| Text.LastPiece | src/components/JoinServerDialog.tsx:43 | the last piece of `split(sep)` is the whole string when the separator is absent, and otherwise exactly the text after the last separator |
| Text.PopPiece | src/components/JoinServerDialog.tsx:43 | `split(sep).pop()` never contains the separator and is the text after the last separator, or the whole string |
| EdgeRouting.Segments | supabase/functions/discord-api/index.ts:47-48 | the path's segments are non-empty and contain no '/' |
| EdgeRouting.LastSegment | supabase/functions/discord-api/index.ts:48-49 | the action is undefined exactly when the path has no segment, and is otherwise a non-empty segment |
| EdgeRouting.LastSegmentOfAppend | supabase/functions/discord-api/index.ts:48-49 | appending "/segment" makes that segment the action |
| EdgeRouting.LastSegmentTrailingSlash | supabase/functions/discord-api/index.ts:47-49 | a trailing slash does not change the action |
| EdgeRouting.ActionOf | supabase/functions/discord-api/index.ts:53-85 | a selected handler's name is the segment |
| EdgeRouting.ActionOfName | supabase/functions/discord-api/index.ts:53-77 | each of the eight names selects its own handler |
| EdgeRouting.RouteOf | supabase/functions/discord-api/index.ts:11-85 | OPTIONS is answered before authentication; any other unauthenticated request gets 401; otherwise the dispatched handler is the one the last segment names |
| EdgeRouting.InvalidActionIff | supabase/functions/discord-api/index.ts:78-85 | an authenticated request gets 400 "Invalid action" iff its last segment is none of the eight names |
| EdgeRouting.RouteOfNamedPath | supabase/functions/discord-api/index.ts:47-77 | ".../name" reaches the handler of that name, whatever precedes it |
| EdgeRouting.PatchInviteIdIsInvites | supabase/functions/discord-api/index.ts:769-770 | the PATCH branch's invite id is always the word "invites" |
| EdgeQueries.Single | supabase/functions/discord-api/index.ts:517-522 | `.single()` yields a row iff exactly one row matched, and then that row |
| EdgeQueries.MembershipsOf | supabase/functions/discord-api/index.ts:561-566 | the lookup returns member rows of that server and user, and is empty iff there is no such membership |
| EdgeQueries.MembershipsOfUnique | supabase/functions/discord-api/index.ts:561-566 | under the unique (server, user) constraint the lookup finds at most one row |
| EdgeQueries.MembershipsOfContains | supabase/functions/discord-api/index.ts:561-566 | every matching row is in the lookup's result |
| EdgeQueries.RoleOf | supabase/functions/discord-api/index.ts:228-233 | a role is only found for a member |
| EdgeQueries.RoleOfMember | supabase/functions/discord-api/index.ts:228-243 | under the unique constraint a role is found iff the user is a member, and it is the role on their row |
| EdgeQueries.WithRoles | supabase/functions/discord-api/index.ts:102-108 | one entry per membership row, carrying that row's role |
| EdgeQueries.ServersOfUserIff | supabase/functions/discord-api/index.ts:100-116 | GET servers lists a server with a role iff the caller holds a membership row with that role |
| EdgeQueries.InsertByPosition | supabase/functions/discord-api/index.ts:213 | inserting into a position-sorted list keeps it sorted and adds exactly the one row |
| EdgeQueries.SortByPosition | supabase/functions/discord-api/index.ts:213 | `.order('position')` is sorted (null positions last) and a permutation of its input |
| EdgeQueries.ChannelsOf | supabase/functions/discord-api/index.ts:207-213 | the channels listed are exactly the server's channels, sorted by position |
| EdgeQueries.DefaultChannels | supabase/functions/discord-api/index.ts:158-174 | a new server gets a text channel at position 0 and a voice channel at position 1 |
| EdgeQueries.DefaultLimitText | supabase/functions/discord-api/index.ts:288 | the default limit text is "50" |
| EdgeQueries.MessageLimitDefault | supabase/functions/discord-api/index.ts:288 | an absent or empty limit means 50 |
| EdgeQueries.MessageLimitAsWritten | supabase/functions/discord-api/index.ts:288 | a decimal limit is read as written |
| EdgeQueries.RecentMessagesAreLatest | supabase/functions/discord-api/index.ts:286-306 | GET messages returns the channel's last `limit` messages, oldest first |
| EdgeQueries.MatchingServers | supabase/functions/discord-api/index.ts:432-436 | a server is listed iff its name contains the query, ignoring case |
| EdgeQueries.SearchCandidates | supabase/functions/discord-api/index.ts:432-437 | min(20, number of matches) servers, each one whose name contains the trimmed query, ignoring case; when at most 20 match, every match is among them |
| EdgeQueries.MemberCountPositive | supabase/functions/discord-api/index.ts:455-458 | a server's count is positive iff some membership row names it |
| EdgeQueries.CountMembers | supabase/functions/discord-api/index.ts:455-458 | the reduce's map gives every candidate server its number of membership rows |
| EdgeQueries.ServerSearch | supabase/functions/discord-api/index.ts:419-476 | a blank query gives []; otherwise one entry per candidate server, in order, with its id, name, description and icon, its number of membership rows and `is_member` iff the caller holds a row |
| EdgeQueries.ServerSearchFindsEveryMatch | supabase/functions/discord-api/index.ts:419-476 | when at most 20 servers match a non-blank query, every matching server appears in the results |
| EdgeQueries.HitAgrees | supabase/functions/discord-api/index.ts:460-476 | with the reduce's counts, a built entry is the specified entry |
| EdgeQueries.SearchHitsFromCounts | supabase/functions/discord-api/index.ts:455-476 | the entries built from the reduce's counts are exactly the search results |
| EdgeQueries.FindServer | supabase/functions/discord-api/index.ts:514-518 | the embedded server is the one with the invite's server id, and none is found only when no server has that id |
| EdgeQueries.LookupInvite | supabase/functions/discord-api/index.ts:514-522 | a found invite is an active row whose code is the trimmed, upper-cased input |
| EdgeQueries.JoinByInviteCheck | supabase/functions/discord-api/index.ts:503-576 | every refusal has status 400, 404, 409, 410 or 500 |
| EdgeQueries.JoinByInviteEarlyRefusals | supabase/functions/discord-api/index.ts:503-536 | a missing or blank code gives 400 "Invite code required"; a non-blank code that no active invite carries (trimmed, upper-cased) gives 404 |
| EdgeQueries.JoinByInviteRefusals | supabase/functions/discord-api/index.ts:538-576 | for the active invite with the code, in this order: expired gives 410 "has expired", used up gives 410 "maximum uses", a missing server gives 500, an existing membership gives 409 |
| EdgeQueries.ActiveWithCodeUnique | supabase/functions/discord-api/index.ts:517-522 | with unique codes, the lookup finds exactly the active row carrying the code |
| EdgeQueries.JoinByInviteAdmitIff | supabase/functions/discord-api/index.ts:503-576 | a join is admitted iff the code is non-blank, the active invite exists, has not expired, is not used up, its server exists and the caller is not yet a member |
| EdgeQueries.JoinByInviteAdmitFacts | supabase/functions/discord-api/index.ts:503-576 | an admitted join has an existing invite row and server, and the caller is not yet a member |
| EdgeQueries.SetUsedCount | supabase/functions/discord-api/index.ts:595-598 | the update keeps the number of rows |
| EdgeQueries.UsedCountRisesByOne | supabase/functions/discord-api/index.ts:595-598 | redeeming raises exactly that invite's used_count by one, and leaves every other row unchanged |
| EdgeQueries.CodeTakenIff | supabase/functions/discord-api/index.ts:662-670 | with unique codes, a code is taken iff some invite carries it |
| EdgeQueries.GenerateInviteCode | supabase/functions/discord-api/index.ts:658-684 | the do-while returns the first code no invite has, and when attempt k is the first free one the code is that answer; an rpc error after only taken codes is thrown; it gives up iff all ten codes were taken |
| EdgeQueries.NewInvite | supabase/functions/discord-api/index.ts:687-695 | a new invite has used_count 0, is active, and has a limit iff max_uses is truthy |
| EdgeQueries.InvitesNewestFirst | supabase/functions/discord-api/index.ts:748-757 | the listed invites are the server's own |
| EdgeQueries.InvitesNewestFirstComplete | supabase/functions/discord-api/index.ts:748-757 | every invite of the server is listed, as often as the table holds it, and no other |
| EdgeQueries.InvitesNewestFirstOrder | supabase/functions/discord-api/index.ts:748-757 | newest first: an earlier entry comes from a later (more recently inserted) row of the table |
| EdgeQueries.SetActive | supabase/functions/discord-api/index.ts:784-790 | the update keeps the number of rows; each matched row takes the new `is_active` (an absent value leaves it as it was), and every other row is untouched |
| EdgeStore.ServerAdded | supabase/functions/discord-api/index.ts:125-136 | adding a server keeps every reference to the existing servers valid |
| EdgeStore.ChannelsAdded | supabase/functions/discord-api/index.ts:158-174 | adding channels keeps every message's reference valid |
| EdgeStore.PatchedIndex | supabase/functions/discord-api/index.ts:784-790 | a position where the PATCH update matches |
| EdgeStore.NoPatchMatch | supabase/functions/discord-api/index.ts:769-790 | when no invite has the id, the PATCH update matches nothing |
| EdgeStore.Database.HandleServers | supabase/functions/discord-api/index.ts:99-191 | GET lists the caller's servers and changes nothing. POST adds the server, the creator as admin, and the text and voice channels. Other methods get 405. The store's constraints are kept |
| EdgeStore.Database.HandleChannels | supabase/functions/discord-api/index.ts:193-270 | a missing server_id gets 400 before the method is examined. GET lists by position. POST adds one channel for an owner, admin or moderator, and otherwise gives 403 with no insert |
| EdgeStore.Database.HandleMessages | supabase/functions/discord-api/index.ts:272-356 | a missing channel_id gets 400 before the method is examined. GET returns the recent messages. POST gives 400 for blank content and otherwise stores the trimmed content |
| EdgeStore.Database.HandleJoinServer | supabase/functions/discord-api/index.ts:358-401 | a second membership gets 409 with nothing written; otherwise exactly one member row is added |
| EdgeStore.Database.HandleSearchServers | supabase/functions/discord-api/index.ts:403-485 | the answer is the search results for the body's query |
| EdgeStore.Database.RedeemInvite | supabase/functions/discord-api/index.ts:578-598 | inserts one `member` row for the invite's server and sets used_count to its old value plus one |
| EdgeStore.Database.HandleJoinByInvite | supabase/functions/discord-api/index.ts:487-609 | a refused check answers its status and writes nothing; an admitted join writes exactly the member row and the count update |
| EdgeStore.Database.JoinWithCode | supabase/functions/discord-api/index.ts:498-609 | once the body is read, the checks run on the store as it was: a refusal writes nothing, an admission writes the member row and the count update |
| EdgeStore.Database.ApplyJoinCheck | supabase/functions/discord-api/index.ts:578-609 | an admitted join adds exactly one `member` row and raises the invite's count by one, answering with the row and the server; a refusal answers as it is with no write |
| EdgeStore.Database.HandleCreateInvite | supabase/functions/discord-api/index.ts:611-714 | gives 400 without a server id, 403 to a non-member and 500 after ten taken codes; when some attempt is the first to return a free code, the answer is 200 with a new invite carrying exactly that code; an rpc error after only taken codes gives 500 with nothing written; any success appends one invite with a code no invite had |
| EdgeStore.Database.HandleInvites | supabase/functions/discord-api/index.ts:716-806 | GET: 400, 403 or the server's invites newest first. PATCH: sets is_active on the rows matching the id and the creator, and answers only when exactly one matched |
| EdgeStore.Database.Serve | supabase/functions/discord-api/index.ts:8-97 | preflight, 401 and 400 "Invalid action" change nothing; a dispatched GET writes nothing; GET servers lists the caller's servers; search answers ServerSearch of the body's query; join-by-invite applies the ordered checks and their writes; the store's constraints are kept |
| EdgeStore.Database.RunHandler | supabase/functions/discord-api/index.ts:53-77 | for the action named by the last path segment: a GET writes nothing; GET servers answers the caller's servers; POST search answers ServerSearch of the body's query; POST join-by-invite applies JoinByInviteCheck and exactly its writes; PATCH on the invites segment itself is thrown; the store's constraints are kept |
| Gateway.InitialWellformed | src/lib/spacebar.ts:36-52 | a new client is well-formed |
| Gateway.OneVoiceBeat | src/lib/spacebar.ts:367-375 | in a well-formed state at most one voice interval runs, and it is the recorded one |
| Gateway.SendOn | src/lib/spacebar.ts:200-208 | `send` appends the payload when there is a socket and does nothing otherwise |
| Gateway.Cleared | src/lib/spacebar.ts:368-370 | `clearInterval` removes exactly the given handle |
| Gateway.Register | src/lib/spacebar.ts:54-59 | `on` appends the handler to its event's list and touches no other list |
| Gateway.Invocations | src/lib/spacebar.ts:61-66 | `emit` calls each handler once, in order, with the same argument |
| Gateway.EmitOn | src/lib/spacebar.ts:61-66 | `emit` changes only the invocation log |
| Gateway.EmitUnknownEvent | src/lib/spacebar.ts:61-66 | emitting an event with no handlers does nothing |
| Gateway.RegisterThenEmit | src/lib/spacebar.ts:54-66 | the handler registered last is called last, after every earlier handler of its event |
| Gateway.InitialToken | src/lib/spacebar.ts:68-76 | fails iff neither the argument nor the configured token is usable; otherwise the argument wins over the configured token |
| Gateway.GatewayUrlOfHttp | src/lib/spacebar.ts:89 | an http(s) endpoint gives the ws(s) URL followed by "/gateway" |
| Gateway.DefaultGatewayUrl | src/lib/spacebar.ts:474-476 | the default endpoint gives ws://localhost:3001/gateway |
| Gateway.GatewayUrlSecure | src/lib/spacebar.ts:89 | an https endpoint gives a wss URL |
| Gateway.GatewayUrlWithoutHttp | src/lib/spacebar.ts:89 | an endpoint without "http" only gets "/gateway" appended |
| Gateway.LoginOn | src/lib/spacebar.ts:84-126 | login keeps the client well-formed |
| Gateway.GatewayOpenOn | src/lib/spacebar.ts:128-145 | identify keeps the client well-formed |
| Gateway.GatewayClosedOn | src/lib/spacebar.ts:105-110 | the close handler keeps the client well-formed |
| Gateway.NextSequence | src/lib/spacebar.ts:148-152 | a truthy `s` replaces the sequence number; an absent or zero `s` keeps it |
| Gateway.StartHeartbeatOn | src/lib/spacebar.ts:194-198 | starting the heartbeat keeps the client well-formed |
| Gateway.SendHeartbeatOn | src/lib/spacebar.ts:200-209 | sending a heartbeat keeps the client well-formed |
| Gateway.DispatchOn | src/lib/spacebar.ts:170-192 | a dispatch keeps the client well-formed |
| Gateway.ReceiveOn | src/lib/spacebar.ts:147-168 | a frame keeps the client well-formed |
| Gateway.ReadyReplacesGuilds | src/lib/spacebar.ts:172-177 | READY stores the session and the user, and replaces the guilds with the dispatched list or [] |
| Gateway.GuildCreateAppendsOne | src/lib/spacebar.ts:178-180 | GUILD_CREATE appends exactly the dispatched guild and keeps the others in order |
| Gateway.DispatchKeepsConnection | src/lib/spacebar.ts:170-192 | no dispatch touches sockets, timers, token, sequence number or handlers |
| Gateway.ReceiveSequence | src/lib/spacebar.ts:148-152 | whatever the opcode, the next sequence number depends only on the frame's `s` |
| Gateway.HeartbeatEchoesSequence | src/lib/spacebar.ts:161-163 | an incoming op 1 sends one op 1 carrying the sequence number the frame left |
| Gateway.SecondHelloLeaks | src/lib/spacebar.ts:155-157 | two Hello frames leave two gateway intervals running, because the first is never cleared |
| Gateway.JoinVoiceOn | src/lib/spacebar.ts:243-283 | joining a voice channel is rejected iff there is no gateway socket, and keeps the client well-formed |
| Gateway.VoiceGatewayOn | src/lib/spacebar.ts:285-336 | replacing the voice socket keeps the client well-formed |
| Gateway.VoiceOpenOn | src/lib/spacebar.ts:295-309 | the voice identify keeps the client well-formed |
| Gateway.VoiceClosedOn | src/lib/spacebar.ts:322-329 | the voice close handler keeps the client well-formed |
| Gateway.StartVoiceHeartbeatOn | src/lib/spacebar.ts:367-375 | restarting the voice heartbeat keeps the client well-formed |
| Gateway.SendVoiceHeartbeatOn | src/lib/spacebar.ts:377-386 | a voice heartbeat keeps the client well-formed |
| Gateway.VoiceReceiveOn | src/lib/spacebar.ts:338-365 | a voice frame keeps the client well-formed |
| Gateway.VoiceHeartbeatRestarts | src/lib/spacebar.ts:367-375 | after a restart exactly one voice interval runs, the new one |
| Gateway.SetVoiceStateOn | src/lib/spacebar.ts:427-442 | setting the voice state keeps the client well-formed |
| Gateway.SetVoiceStateSpeaking | src/lib/spacebar.ts:427-441 | records (muted, deafened); with a voice socket it sends op 5 whose speaking flag is 0 iff muted |
| Gateway.LeaveVoiceOn | src/lib/spacebar.ts:388-425 | leaving voice keeps the client well-formed |
| Gateway.DropVoiceOn | src/lib/spacebar.ts:405-418 | dropping the voice session keeps the client well-formed |
| Gateway.LeaveVoiceClears | src/lib/spacebar.ts:405-418 | after leaving there is no voice socket, session, state or running voice interval |
| Gateway.DisconnectOn | src/lib/spacebar.ts:444-464 | disconnect keeps the client well-formed |
| Gateway.DisconnectClears | src/lib/spacebar.ts:444-459 | after disconnect no session is left and the recorded heartbeat no longer runs; the sequence number and handlers are kept |
| Gateway.FireOn | src/lib/spacebar.ts:194-198 | a live interval firing keeps the client well-formed |
| Gateway.SpacebarClient.constructor | src/lib/spacebar.ts:50-52 | a new client is in the initial state |
| Gateway.SpacebarClient.On | src/lib/spacebar.ts:54-59 | the state becomes the registered state |
| Gateway.SpacebarClient.Emit | src/lib/spacebar.ts:61-66 | the state becomes the emitted state |
| Gateway.SpacebarClient.Initialize | src/lib/spacebar.ts:68-82 | returns false and changes nothing iff no token is usable; otherwise stores the chosen token |
| Gateway.SpacebarClient.Login | src/lib/spacebar.ts:84-126 | the state becomes the logged-in state |
| Gateway.SpacebarClient.GatewayOpened | src/lib/spacebar.ts:128-145 | applies the identify transition |
| Gateway.SpacebarClient.GatewayClosed | src/lib/spacebar.ts:105-110 | applies the close transition |
| Gateway.SpacebarClient.HandleMessage | src/lib/spacebar.ts:147-168 | applies the frame transition |
| Gateway.SpacebarClient.HandleDispatch | src/lib/spacebar.ts:170-192 | applies the dispatch transition |
| Gateway.SpacebarClient.StartHeartbeat | src/lib/spacebar.ts:194-198 | applies the heartbeat start |
| Gateway.SpacebarClient.SendHeartbeat | src/lib/spacebar.ts:200-209 | applies the heartbeat send |
| Gateway.SpacebarClient.ConnectToVoiceChannel | src/lib/spacebar.ts:243-283 | rejected iff there is no gateway socket; otherwise applies the join |
| Gateway.SpacebarClient.ConnectToVoiceGateway | src/lib/spacebar.ts:285-336 | applies the voice socket replacement |
| Gateway.SpacebarClient.VoiceOpened | src/lib/spacebar.ts:295-309 | applies the voice identify |
| Gateway.SpacebarClient.VoiceClosed | src/lib/spacebar.ts:322-329 | applies the voice close |
| Gateway.SpacebarClient.HandleVoiceMessage | src/lib/spacebar.ts:338-365 | applies the voice frame transition |
| Gateway.SpacebarClient.StartVoiceHeartbeat | src/lib/spacebar.ts:367-375 | applies the voice heartbeat restart |
| Gateway.SpacebarClient.SendVoiceHeartbeat | src/lib/spacebar.ts:377-386 | applies the voice heartbeat send |
| Gateway.SpacebarClient.DisconnectFromVoiceChannel | src/lib/spacebar.ts:388-425 | applies leaving voice |
| Gateway.SpacebarClient.DropVoiceSession | src/lib/spacebar.ts:405-418 | applies the voice session drop |
| Gateway.SpacebarClient.SetVoiceState | src/lib/spacebar.ts:427-442 | applies the voice state update |
| Gateway.SpacebarClient.Disconnect | src/lib/spacebar.ts:444-464 | applies disconnect |
| Gateway.SpacebarClient.DropSession | src/lib/spacebar.ts:450-459 | drops the socket, the heartbeat and the session fields |
| Gateway.SpacebarClient.FireTimer | src/lib/spacebar.ts:194-198 | applies a timer's callback |
| Media.SetAudioEnabled | src/lib/webrtcManager.ts:138-143 | every audio track's `enabled` becomes the value; other tracks are untouched and none is stopped |
| Media.StopAll | src/lib/webrtcManager.ts:125-128 | every track ends up stopped |
| Media.AddTracks | src/hooks/useWebRTCConnections.ts:37-42 | the connection gains the tracks, in order |
| VoiceManager.SpeakingIffMeanAboveTen | src/lib/webrtcManager.ts:62-65 | the integer test `sum > 10 * length` is the test "mean above 10 and not muted" |
| VoiceManager.MeanAbove | src/lib/webrtcManager.ts:62-65 | for a positive count, the mean exceeds k iff the total exceeds k times the count |
| VoiceManager.CloseAll | src/lib/webrtcManager.ts:115-122 | every peer connection and data channel of the map is closed |
| VoiceManager.WebRTCVoiceManager.IsConnected | src/lib/webrtcManager.ts:189-191 | connected iff there is a current channel |
| VoiceManager.WebRTCVoiceManager.ConnectToChannel | src/lib/webrtcManager.ts:83-110 | fails iff there is no stream and none could be acquired, changing nothing; otherwise the channel is set and the report lists only the local user with the current flags, not speaking |
| VoiceManager.WebRTCVoiceManager.DisconnectFromChannel | src/lib/webrtcManager.ts:112-133 | closes every connection and channel, stops the local tracks, empties the map and clears stream and channel, then reports [] and disconnected |
| VoiceManager.WebRTCVoiceManager.ToggleMute | src/lib/webrtcManager.ts:135-146 | flips and returns isMuted; audio tracks are enabled iff unmuted |
| VoiceManager.WebRTCVoiceManager.ToggleDeafen | src/lib/webrtcManager.ts:148-163 | flips and returns isDeafened; deafening forces mute and disables the audio tracks; undeafening keeps the mute flag |
| PeerConnections.Targets | src/hooks/useWebRTCConnections.ts:108-109 | the loop's targets are the participants other than the current user |
| PeerConnections.TargetsStep | src/hooks/useWebRTCConnections.ts:108-118 | one more participant adds that participant, unless it is the current user |
| PeerConnections.CurrentUserNotTarget | src/hooks/useWebRTCConnections.ts:108-109 | the current user is never a target |
| PeerConnections.CloseAllPeers | src/hooks/useWebRTCConnections.ts:131-134 | every peer is closed |
| PeerConnections.DetachAll | src/hooks/useWebRTCConnections.ts:137-140 | every audio element loses its source |
| PeerConnections.WebRTCConnections.constructor | src/hooks/useWebRTCConnections.ts:10-12 | both maps start empty |
| PeerConnections.WebRTCConnections.CreatePeerConnection | src/hooks/useWebRTCConnections.ts:17-90 | closes the user's old peer; on success stores a fresh connection carrying the local tracks under the user, and on failure leaves the user absent; no other entry changes and no leak is introduced |
| PeerConnections.WebRTCConnections.ClosePeer | src/hooks/useWebRTCConnections.ts:22-27 | the old peer is closed and removed |
| PeerConnections.WebRTCConnections.OpenPeer | src/hooks/useWebRTCConnections.ts:29-87 | a fresh connection carrying exactly the given tracks is stored under the user, and the others are kept |
| PeerConnections.WebRTCConnections.StorePeer | src/hooks/useWebRTCConnections.ts:87 | the map holds the new peer under the user |
| PeerConnections.WebRTCConnections.Reconnect | src/hooks/useWebRTCConnections.ts:110-116 | one loop step: a failing user ends absent and a succeeding one has a fresh peer with the local tracks; earlier users keep their peers |
| PeerConnections.WebRTCConnections.ProcessConnections | src/hooks/useWebRTCConnections.ts:93-124 | without a channel or stream nothing changes. Otherwise every target ends with a fresh peer carrying the local tracks, or absent if it failed, and non-targets keep their entries; one failure does not stop the loop |
| PeerConnections.WebRTCConnections.OnTrack | src/hooks/useWebRTCConnections.ts:48-68 | reuses the user's element or creates exactly one, sets its source, and leaves the other elements as they were |
| PeerConnections.WebRTCConnections.Cleanup | src/hooks/useWebRTCConnections.ts:127-142 | both maps are empty, every connection ever made is closed, and every element is detached |
| Volume.Clamp | src/hooks/useSpacebarVoice.ts:140-143 | the volume lies in [0, 100]: an in-range value is kept, lower values give 0, higher values give 100 |
| Volume.ClampIdempotent | src/hooks/useWebRTCVoice.ts:149-152 | clamping twice is clamping once |
| SpacebarVoice.Connect | src/hooks/useSpacebarVoice.ts:33-75 | connected iff the client has a user; then only the channel and the local, unmuted, silent user are set; otherwise no channel and no users; mute, deafen and volume are kept |
| SpacebarVoice.Disconnect | src/hooks/useSpacebarVoice.ts:78-98 | the client leaves voice and the hook is back to the initial state |
| SpacebarVoice.ToggleMute | src/hooks/useSpacebarVoice.ts:100-116 | negates isMuted, keeps every other field, and tells the client the stored pair |
| SpacebarVoice.ToggleDeafen | src/hooks/useSpacebarVoice.ts:118-136 | negates isDeafened; deafening forces mute and undeafening keeps it; the client gets the stored pair |
| SpacebarVoice.SetVolume | src/hooks/useSpacebarVoice.ts:138-150 | stores the clamped volume and nothing else |
| SpacebarVoice.ToggleMuteTwice | src/hooks/useSpacebarVoice.ts:100-116 | toggling mute twice restores the hook's state |
| SpacebarVoice.ClientAgreesWithHook | src/hooks/useSpacebarVoice.ts:105-130 | after either toggle, the client's voice state is the hook's (muted, deafened) pair |
| SpacebarVoice.RunConsistent | src/hooks/useSpacebarVoice.ts:23-150 | any sequence of callbacks keeps the volume in range and "connected iff channel, no users when disconnected" |
| WebRTCVoice.Username | src/hooks/useWebRTCVoice.ts:77 | the text before the first '@', or the whole address without '@', or "User" when that is empty or absent; never empty and never contains '@' |
| WebRTCVoice.UsernameOfAddress | src/hooks/useWebRTCVoice.ts:77 | a non-empty local part is the username |
| WebRTCVoice.OnUsersUpdate | src/hooks/useWebRTCVoice.ts:39-45 | the list replaces the connected users and nothing else |
| WebRTCVoice.OnConnectionStateChange | src/hooks/useWebRTCVoice.ts:47-54 | stores the flag and always clears isConnecting |
| WebRTCVoice.ApplyReports | src/hooks/useWebRTCVoice.ts:39-54 | the last reported flag and list win; nothing else changes |
| WebRTCVoice.ConnectStart | src/hooks/useWebRTCVoice.ts:74 | connecting to the channel, nothing else |
| WebRTCVoice.ConnectFailed | src/hooks/useWebRTCVoice.ts:82-90 | neither connecting nor connected, no channel |
| WebRTCVoice.SetVolume | src/hooks/useWebRTCVoice.ts:147-158 | stores the clamped volume and nothing else |
| WebRTCVoice.WebRTCVoiceHook.constructor | src/hooks/useWebRTCVoice.ts:26-35 | the hook starts in the initial state |
| WebRTCVoice.WebRTCVoiceHook.ConnectToVoiceChannel | src/hooks/useWebRTCVoice.ts:66-91 | no user changes nothing; a manager that connects leaves the hook connected with the manager's report; a failure leaves it disconnected without a channel |
| WebRTCVoice.WebRTCVoiceHook.DisconnectFromVoiceChannel | src/hooks/useWebRTCVoice.ts:93-113 | the manager leaves its channel and the hook resets to the initial state, while the manager keeps its mute flags |
| WebRTCVoice.WebRTCVoiceHook.ToggleMute | src/hooks/useWebRTCVoice.ts:115-128 | the hook stores the manager's new mute flag and nothing else |
| WebRTCVoice.WebRTCVoiceHook.ToggleDeafen | src/hooks/useWebRTCVoice.ts:130-145 | the hook stores the manager's new deafen flag with the manager's resulting mute flag |
| WebRTCVoice.WebRTCVoiceHook.SetVolumeTo | src/hooks/useWebRTCVoice.ts:147-158 | applies the clamped volume |
| WebRTCVoice.WebRTCVoiceHook.Unmount | src/hooks/useWebRTCVoice.ts:160-167 | a connected manager is disconnected, and one that is not connected is left untouched |
| InviteStatus.InactiveIffServerRefuses | src/components/ServerInviteManager.tsx:144-152 | the card is dimmed iff the server would refuse the invite as inactive, expired or used up |
| InviteStatus.BadgeOf | src/components/ServerInviteManager.tsx:233-253 | "active" iff not inactive; disabled, then expired, then exhausted |
| InviteStatus.BadgeText | src/components/ServerInviteManager.tsx:247-253 | the text is "Активно" iff the badge is active |
| InviteStatus.DeactivateIffNotDisabled | src/components/ServerInviteManager.tsx:288-296 | the deactivate button is missing exactly on the disabled badge |
| InviteStatus.CreatorName | src/components/ServerInviteManager.tsx:274 | the display name when non-empty, else the username |
| InviteStatus.UsageText | src/components/ServerInviteManager.tsx:259-262 | contains '/' iff there is a non-zero limit |
| InviteStatus.SlashNotInNumber | src/components/ServerInviteManager.tsx:259-262 | a rendered number contains no '/' |
| InviteStatus.SplitAtSlash | src/components/ServerInviteManager.tsx:259-262 | two numbers joined by '/' split back into their renderings |
| InviteStatus.PairReadsBack | src/components/ServerInviteManager.tsx:259-262 | "used/limit" splits into exactly two pieces that parse back to the two numbers |
| InviteStatus.UsageTextReadsBack | src/components/ServerInviteManager.tsx:259-262 | the usage text parses back to the used count and, exactly when shown, the limit |
| InviteStatus.BuildOptions | src/components/ServerInviteManager.tsx:65-83 | maxUses is present iff the field is non-empty; expiresAt is present iff the choice is not "never", and then lies that many days from now; a non-numeric choice yields no options |
| InviteStatus.DefaultOptions | src/components/ServerInviteManager.tsx:92-93 | the reset form asks for an unlimited invite expiring in seven days |
| JoinDialog.ExtractCode | src/components/JoinServerDialog.tsx:41-44 | the code never contains '/'; it is the trimmed input, or the text after the last '/' in it |
| JoinDialog.ExtractFromLink | src/components/JoinServerDialog.tsx:41-44 | a link ending in "/code" gives the code, whatever precedes the last '/' |
| JoinDialog.SuggestedLink | src/components/JoinServerDialog.tsx:125 | "https://discord.gg/ABC123" gives "ABC123" |
| JoinDialog.SuggestedShortLink | src/components/JoinServerDialog.tsx:126 | "discord.gg/ABC123" gives "ABC123" |
| JoinDialog.SuggestedCode | src/components/JoinServerDialog.tsx:127 | "ABC123" gives itself |
| JoinDialog.TrailingSlashGivesEmpty | src/components/JoinServerDialog.tsx:42-44 | input ending in '/' gives the empty code |
| JoinDialog.Submit | src/components/JoinServerDialog.tsx:27-47 | blank input changes nothing and calls no API wrapper; any other input passes the extracted code to the API wrapper and sets joining |
| JoinDialog.Finish | src/components/JoinServerDialog.tsx:22-64 | success clears the input, closes the dialog and notifies the parent; failure keeps the input; joining ends either way |
| JoinDialog.TrailingSlashRefusedByServer | src/components/JoinServerDialog.tsx:41-44 | "discord.gg/" passes the blank guard and the code the dialog would pass on is empty; join-by-invite refuses an empty code with 400 |
| ServerSearch.StartSearch | src/components/ServerSearch.tsx:30-38 | a blank query clears the results and calls no API wrapper; otherwise the untrimmed query is passed to the API wrapper and the view is loading |
| ServerSearch.SearchAnswered | src/components/ServerSearch.tsx:36-49 | loading ends; the answer replaces the results, and a failure keeps them |
| ServerSearch.MarkJoined | src/components/ServerSearch.tsx:58-64 | same length, order and ids; the joined server's entries become members with one more member; other entries are unchanged |
| ServerSearch.MarkUnlisted | src/components/ServerSearch.tsx:58-64 | joining a server that is not listed changes nothing |
| ServerSearch.MarkJoinedAddsOnePerEntry | src/components/ServerSearch.tsx:58-64 | the total shown member count rises by the number of entries for the joined server |
| ServerSearch.JoinAnswered | src/components/ServerSearch.tsx:52-82 | success marks the server joined and notifies the parent; failure keeps the list; joining ends either way |
| FriendsFilter.FilteredFriends | src/components/DirectMessagesArea.tsx:37-43 | a friend is listed iff it matches both the search and the status filter |
| FriendsFilter.FilteredKeepsOrder | src/components/DirectMessagesArea.tsx:37-43 | the filtered list keeps the friends' order |
| FriendsFilter.EmptyQueryMatches | src/components/DirectMessagesArea.tsx:38-40 | the empty query matches every friend |
| FriendsFilter.EmptyQueryShowsAll | src/components/DirectMessagesArea.tsx:37-43 | an empty query with "all" shows the whole list, in order |
| FriendsFilter.NameSearchIgnoresCase | src/components/DirectMessagesArea.tsx:38-39 | the name search does not depend on the query's case |
| FriendsFilter.StatusColor | src/components/DirectMessagesArea.tsx:45-52 | online, away and busy have their own class, and any other status is offline |
| ChatView.HeaderAbove | src/components/ChatArea.tsx:84-85 | every message's nearest header above it, and every message between, has its author |
| ChatView.SendMessage | src/components/ChatArea.tsx:46-53 | a blank draft stays and nothing is handed on; any other draft is handed on as typed (the code only logs it) and the box is cleared |
| ChatView.ViewFor | src/components/ChatArea.tsx:55-70 | a voice channel gets the placeholder, and any other type the message list |
| IndexPage.PageCatalogueClosed | src/pages/Index.tsx:7-28 | every listed channel exists, and the page starts on a known server and channel |
| IndexPage.ServerChange | src/pages/Index.tsx:33-40 | the server is always the chosen one; a server with channels moves to its first channel; home and unknown ids keep the channel |
| IndexPage.ServerChangeKeepsKnownChannel | src/pages/Index.tsx:33-40 | in a closed catalogue a known active channel stays known |
| IndexPage.ServerName | src/pages/Index.tsx:52 | the active server's name, or "Server" for an unknown server |
| IndexPage.ChannelName | src/pages/Index.tsx:59 | the channel's name, or "канал" for an unknown channel |
| IndexPage.ChannelType | src/pages/Index.tsx:60 | the channel's type, or "text" for an unknown channel |
| IndexPage.UserListBesideMessages | src/pages/Index.tsx:59-64 | the member list appears only beside a message list, and never for an unknown channel |
| IndexPage.CatalogueServerChange | src/pages/Index.tsx:7-40 | on the page's own catalogue, switching servers keeps a known channel known |

## Left out

- JoinDialog.Submit, JoinDialog.Finish, ServerSearch.StartSearch, ServerSearch.SearchAnswered,
  ServerSearch.JoinAnswered and InviteStatus.BuildOptions stop at the call into `api` from
  src/lib/api.ts: whether that call succeeds is a free parameter of the model. The api.ts as
  given defines only `getServers`, `createServer`, `getChannels`, `createChannel`,
  `getMessages`, `sendMessage` and `joinServer`. It has no `joinServerByInvite`,
  `searchServers`, `getServerInvites`, `createServerInvite` or `deactivateInvite`, so as written
  those calls throw inside their `try` and only the failure branches run. The join half of
  ServerSearch.JoinAnswered uses `joinServer`, which exists. That a `{code}` or `{query}` body
  reaches the edge function is assumed, not shown. JoinDialog.TrailingSlashRefusedByServer
  states what join-by-invite would answer to the code the dialog would pass on.
- Network, WebSocket, WebRTC, microphone, audio analysis, timers and the Supabase client are
  outside the model.
  - Sockets are payload lists, intervals are timer handles, and tables are sequences.
  - Keys, clocks, `getUserMedia` results and `generate_invite_code` answers are parameters.
- Asynchrony is left out. Each callback or handler is one atomic step. This covers the login
  and voice timeouts, promise interleavings and the 1000 ms settle delay of the peer loop.
  The manager's user-list and connection-state reports are applied connection state first,
  which is the order in which `connectToChannel` fires them.
- The close events of replaced or closed sockets are not delivered back to the client.
- Handlers registered with `on` are opaque. Their effects are not modelled, only their calls.
- Every frame carries a `d` object whose fields may be absent. A frame without `d` is not
  modelled: on Hello, READY and voice Ready the source throws on it after the sequence number
  has been updated. Heartbeat ACK (op 11, voice op 6) and unknown opcodes change nothing;
  MESSAGE_CREATE and voice Speaking (op 5) only emit their events.
- `register`, `getUser` and `getGuilds` of the gateway client are accessors or network calls,
  and are not part of this model. `setMockUser` assigns the client's user; it is a
  development mutator that the model leaves out.
- The store's constraints (primary keys, unique memberships and codes, foreign keys, and
  NOT NULL on `server_members.server_id`) are assumed as the class invariant. The last is
  why EdgeStore.Database.HandleJoinServer answers a body without `server_id` with a thrown
  error: `insert` drops the undefined key, which fails only under NOT NULL. Row-level security and the `profiles` join are not
  modelled.
- EdgeQueries.SearchCandidates: the `ilike` wildcards `%`, `_` and `\` in the query are
  treated as literal characters. `.limit(20)` without an order lets the database pick any 20
  matches; the model takes the first 20 in table order.
- JSON `null` and an absent body field are both None. `const { name, type = 'text' }` defaults
  only an absent `type`, so a body with `"type": null` inserts a null type, while
  EdgeStore.Database.HandleChannels inserts "text". A PATCH without `is_active` sends an empty
  update; the model answers with the matched row unchanged (EdgeQueries.SetActive), which the
  source text alone does not settle.
- EdgeStore.Database.HandleJoinByInvite answers `Joined(member, server)` with the whole
  server row, where the source embeds only `servers(id, name, description)` and returns that
  projection.
- Every body field is a string or absent. A JSON body whose `content`, `name`, `query` or
  `invite_code` is a number or an object is not modelled; in the source, `.trim()` on such a
  value throws and the request gets 500.
- Text.IntToString never uses the exponent form that `String(n)` gives from 1e21 on, and
  Text.ParseInt reads every digit exactly, where `parseInt` loses precision above 2^53.
- EdgeStore.Database.HandleMessages: a NaN or negative `limit` is taken to make the query
  fail (500).
- Case mapping covers ASCII and basic Cyrillic only; trimming uses the JavaScript white-space
  set.
- Volume is an integer. The slider's floating-point values and NaN are not modelled.
- Audio element volume is fixed at its initial value.
- Dates are integer milliseconds. InviteStatus.BuildOptions adds whole days of 86 400 000 ms,
  so daylight-saving shifts that `setDate` would follow are not modelled. `formatDate` and
  the locale formatting are not modelled either.
- WebRTCVoice.WebRTCVoiceHook.DisconnectFromVoiceChannel resets the hook's mute flags but not
  the manager's, as the code does, so the two can disagree after a reconnect.
- The unmount cleanup of the Spacebar hook is its disconnect (SpacebarVoice.Disconnect).
- The following are not implemented in the code, so there is nothing to model: ICE candidate
  forwarding (the handler only logs), offer/answer negotiation and the manager's unused
  `createPeerConnection`.
- The voice manager's speaking broadcast over data channels is code the model leaves out. It
  sends on every open data channel of `connections`, but since `createPeerConnection` is never
  called that map stays empty and nothing is sent. Only the speaking test itself is modelled
  (VoiceManager.SpeakingIffMeanAboveTen).
- `play()` of the remote audio elements is a browser effect that the model leaves out. Its
  failure is only logged.
- The mock friend and message data of the components are not reproduced. The filter and
  grouping are proved for every list.
- supabase/functions/voice-chat/index.ts is not part of this model. Neither are
  src/hooks/useVoiceChat.ts, useRealtime.ts, useSpacebarAuth.ts, useVoiceChannel.ts,
  src/lib/api.ts, src/lib/voicePresenceManager.ts, or the components that only present
  data: VoiceChat, VoiceChannelInterface, SpacebarVoiceInterface, ChannelSidebar,
  ServerSidebar, UserList, DirectMessagesSidebar, CreateServerDialog and Auth.
