/**
 * The Spacebar gateway client (`SpacebarClient`): a registry of event handlers, the main
 * gateway socket with its sequence number and heartbeat, the session fields that dispatches
 * fill in, and a voice sub-session with its own socket and heartbeat.
 *
 * A socket is modelled by the payloads passed to its `send`; an interval by a handle into a
 * table of live timers, so that a timer that is never cleared stays visible. Handlers
 * registered with `on` are opaque: emitting an event records one invocation per handler.
 * Every transition is a function on `ClientState`; the methods of the class apply them in
 * place.
 */
module Gateway {
  import opened Wrappers
  import opened Text

  datatype User = User(id: string, username: string, discriminator: string, avatar: Option<string>)

  /**
   * The fields of a frame's `d` object that the client reads (None when absent). A guild is
   * such an object too: GUILD_CREATE stores `d` itself.
   */
  datatype Data = Data(
    heartbeatInterval: Option<int>, sessionId: Option<string>, user: Option<User>,
    guilds: Option<seq<Data>>)

  /** A frame received on a socket: opcode `op`, data `d`, sequence number `s`, dispatch type `t`. */
  datatype Frame = Frame(op: int, d: Data, s: Option<int>, t: Option<string>)

  /** The payloads the client sends, one constructor per opcode it uses. */
  datatype Outgoing =
    | Identify(token: string, intents: int)
    | Heartbeat(sequence: Option<int>)
    | VoiceStateUpdate(guildId: Option<string>, channelId: Option<string>, selfMute: bool, selfDeaf: bool)
    | VoiceIdentify(serverId: string, userId: Option<string>, sessionId: Option<string>, token: string)
    | VoiceHeartbeat(nonce: int)
    | Speaking(speaking: int, delay: int, ssrc: int)

  /** The `op` field each payload is sent with (main gateway: 2, 1, 4; voice gateway: 0, 3, 5). */
  function OpCode(p: Outgoing): int {
    match p
    case Identify(_, _) => 2
    case Heartbeat(_) => 1
    case VoiceStateUpdate(_, _, _, _) => 4
    case VoiceIdentify(_, _, _, _) => 0
    case VoiceHeartbeat(_) => 3
    case Speaking(_, _, _) => 5
  }

  /** GUILDS (1) plus GUILD_VOICE_STATES (512). */
  const Intents := 513

  /** The host part of the endpoint of the client the application creates. */
  const DefaultHost := "://localhost:3001"

  /** The endpoint of the client the application creates: "http://localhost:3001". */
  const DefaultEndpoint := "http" + DefaultHost

  /** An open or closed socket: its URL and every payload passed to `send`. */
  datatype Socket = Socket(url: string, sent: seq<Outgoing>, closed: bool)

  datatype Beat = GatewayBeat | VoiceBeat

  /** A running `setInterval`: which heartbeat it sends, and the interval it was given. */
  datatype Timer = Timer(beat: Beat, interval: Option<int>)

  type HandlerId = nat

  /** One call of a registered handler by `emit`. */
  datatype Invocation = Invocation(handler: HandlerId, event: string, arg: Option<Data>)

  datatype VoiceState = VoiceState(muted: bool, deafened: bool)

  /** Every mutable field of the client; `calls` records the handler invocations. */
  datatype ClientState = ClientState(
    ws: Option<Socket>, voiceWs: Option<Socket>, token: Option<string>,
    heartbeat: Option<nat>, voiceHeartbeat: Option<nat>, timers: map<nat, Timer>, nextHandle: nat,
    sequenceNumber: Option<int>, sessionId: Option<string>, voiceSessionId: Option<string>,
    user: Option<User>, guilds: seq<Data>, handlers: map<string, seq<HandlerId>>,
    calls: seq<Invocation>, voiceState: Option<VoiceState>)

  /** A new client: no sockets, no timers, no session (interval handles start at 1, as in browsers). */
  const Initial := ClientState(None, None, None, None, None, map[], 1, None, None, None, None, [], map[], [], None)

  /**
   * Handles are fresh, and the voice heartbeat is tracked: the only live voice timer is the one
   * `voiceHeartbeat` holds. (No such invariant holds for gateway timers; see `SecondHelloLeaks`.)
   */
  predicate Wellformed(s: ClientState) {
    s.nextHandle > 0
    && (forall h :: h in s.timers ==> 0 < h < s.nextHandle)
    && (s.heartbeat.Some? ==> 0 < s.heartbeat.value < s.nextHandle)
    && (s.heartbeat.Some? && s.heartbeat.value in s.timers ==> s.timers[s.heartbeat.value].beat == GatewayBeat)
    && (s.voiceHeartbeat.Some? ==>
          s.voiceHeartbeat.value in s.timers && s.timers[s.voiceHeartbeat.value].beat == VoiceBeat)
    && (forall h :: h in s.timers && s.timers[h].beat == VoiceBeat ==> s.voiceHeartbeat == Some(h))
  }

  lemma InitialWellformed()
    ensures Wellformed(Initial)
  {
  }

  /** The handles of the live timers of one kind. */
  function Beats(s: ClientState, beat: Beat): set<nat> {
    set h | h in s.timers && s.timers[h].beat == beat
  }

  /** In a well-formed state at most one voice heartbeat runs, and it is the recorded one. */
  lemma OneVoiceBeat(s: ClientState)
    requires Wellformed(s)
    ensures Beats(s, VoiceBeat) == if s.voiceHeartbeat.Some? then {s.voiceHeartbeat.value} else {}
  {
  }

  // ---------------------------------------------------------------------------------------
  // Sockets and timers

  /** `sock.send(p)`, skipped when there is no socket (`if (!this.ws) return`). */
  function SendOn(sock: Option<Socket>, p: Outgoing): (r: Option<Socket>)
    ensures r.Some? <==> sock.Some?
    ensures r.Some? ==> r.value == sock.value.(sent := sock.value.sent + [p])
  {
    if sock.None? then None else Some(sock.value.(sent := sock.value.sent + [p]))
  }

  function CloseOn(sock: Option<Socket>): Option<Socket> {
    if sock.None? then None else Some(sock.value.(closed := true))
  }

  /** `clearInterval(h)` when `h` is set. */
  function Cleared(timers: map<nat, Timer>, h: Option<nat>): (r: map<nat, Timer>)
    ensures forall k :: k in r <==> k in timers && h != Some(k)
    ensures forall k :: k in r ==> r[k] == timers[k]
  {
    if h.Some? then timers - {h.value} else timers
  }

  // ---------------------------------------------------------------------------------------
  // Handler registry

  /** The handlers registered for `event`, in registration order. */
  function Registered(handlers: map<string, seq<HandlerId>>, event: string): seq<HandlerId> {
    if event in handlers then handlers[event] else []
  }

  /** `on(event, h)`: appends `h` to the event's list and touches no other list. */
  function Register(s: ClientState, event: string, h: HandlerId): (r: ClientState)
    ensures Registered(r.handlers, event) == Registered(s.handlers, event) + [h]
    ensures forall e :: e != event ==> Registered(r.handlers, e) == Registered(s.handlers, e)
    ensures r.(handlers := s.handlers) == s
    ensures Wellformed(s) ==> Wellformed(r)
  {
    s.(handlers := s.handlers[event := Registered(s.handlers, event) + [h]])
  }

  /** The invocations `emit` makes: each handler once, in order, with the same argument. */
  function Invocations(hs: seq<HandlerId>, event: string, arg: Option<Data>): (r: seq<Invocation>)
    ensures |r| == |hs|
    ensures forall i :: 0 <= i < |r| ==> r[i] == Invocation(hs[i], event, arg)
  {
    seq(|hs|, i requires 0 <= i < |hs| => Invocation(hs[i], event, arg))
  }

  /** `emit(event, arg)`: only the log of invocations changes. */
  function EmitOn(s: ClientState, event: string, arg: Option<Data>): (r: ClientState)
    ensures r.(calls := s.calls) == s
    ensures Wellformed(s) ==> Wellformed(r)
  {
    s.(calls := s.calls + Invocations(Registered(s.handlers, event), event, arg))
  }

  /** Emitting an event nobody registered for does nothing. */
  lemma EmitUnknownEvent(s: ClientState, event: string, arg: Option<Data>)
    requires event !in s.handlers
    ensures EmitOn(s, event, arg) == s
  {
    assert Invocations([], event, arg) == [];
  }

  /** A handler registered last is invoked last, after every earlier handler of its event. */
  lemma RegisterThenEmit(s: ClientState, event: string, h: HandlerId, arg: Option<Data>)
    ensures EmitOn(Register(s, event, h), event, arg).calls
      == s.calls + Invocations(Registered(s.handlers, event), event, arg) + [Invocation(h, event, arg)]
  {
    var hs := Registered(s.handlers, event);
    assert Invocations(hs + [h], event, arg) == Invocations(hs, event, arg) + [Invocation(h, event, arg)];
  }

  // ---------------------------------------------------------------------------------------
  // Main gateway

  /** `initialize(token)`: the token to store, or None when neither the argument nor the configured token is usable. */
  function InitialToken(configToken: Option<string>, token: Option<string>): (r: Option<string>)
    ensures r.None? <==> !Truthy(token) && !Truthy(configToken)
    ensures Truthy(token) ==> r == token
    ensures !Truthy(token) && Truthy(configToken) ==> r == configToken
  {
    if !Truthy(token) && !Truthy(configToken) then None
    else if Truthy(token) then token
    else configToken
  }

  /** The gateway URL: the first "http" of the endpoint becomes "ws", then "/gateway" follows. */
  function GatewayUrl(endpoint: string): string {
    ReplaceFirst(endpoint, "http", "ws") + "/gateway"
  }

  /** An http(s) endpoint yields the matching ws(s) URL. */
  lemma GatewayUrlOfHttp(rest: string)
    ensures GatewayUrl("http" + rest) == "ws" + rest + "/gateway"
  {
    ReplaceFirstAtStart("http", rest, "ws");
  }

  lemma DefaultGatewayUrl()
    ensures GatewayUrl(DefaultEndpoint) == "ws" + DefaultHost + "/gateway"
  {
    GatewayUrlOfHttp(DefaultHost);
  }

  /** An https endpoint yields a wss URL. */
  lemma GatewayUrlSecure(host: string)
    ensures GatewayUrl("https://" + host) == "wss://" + host + "/gateway"
  {
    var https, secure := "https://", "s://";
    assert https == "http" + secure;
    RegroupAppend(https + host, "http", secure, host);
    GatewayUrlOfHttp(secure + host);
  }

  /** Moves the split of a prefix across an append. */
  lemma RegroupAppend(whole: string, a: string, b: string, c: string)
    requires whole == (a + b) + c
    ensures whole == a + (b + c)
  {
  }

  /** An endpoint without "http" is used as it is. */
  lemma GatewayUrlWithoutHttp(endpoint: string)
    requires !Includes(endpoint, "http")
    ensures GatewayUrl(endpoint) == endpoint + "/gateway"
  {
  }

  /** `login(token)`: stores the token, opens a new gateway socket and waits for "ready". */
  function LoginOn(s: ClientState, endpoint: string, token: string, ready: HandlerId): (r: ClientState)
    ensures Wellformed(s) ==> Wellformed(r)
  {
    Register(s.(token := Some(token), ws := Some(Socket(GatewayUrl(endpoint), [], false))), "ready", ready)
  }

  /** The socket's `onopen`: `identify` sends op 2 when there is a socket and a non-empty token. */
  function GatewayOpenOn(s: ClientState): (r: ClientState)
    ensures Wellformed(s) ==> Wellformed(r)
  {
    if s.ws.None? || !Truthy(s.token) then s
    else s.(ws := SendOn(s.ws, Identify(s.token.value, Intents)))
  }

  /** The socket's `onclose`: the heartbeat interval is cleared, but its handle is kept. */
  function GatewayClosedOn(s: ClientState): (r: ClientState)
    ensures Wellformed(s) ==> Wellformed(r)
  {
    s.(ws := CloseOn(s.ws), timers := Cleared(s.timers, s.heartbeat))
  }

  /** A truthy `s` replaces the sequence number; an absent or zero `s` keeps it. */
  function NextSequence(current: Option<int>, s: Option<int>): (r: Option<int>)
    ensures TruthyNum(s) ==> r == s
    ensures !TruthyNum(s) ==> r == current
  {
    if TruthyNum(s) then s else current
  }

  /** `startHeartbeat(interval)`: a new gateway interval, without clearing any previous one. */
  function StartHeartbeatOn(s: ClientState, interval: Option<int>): (r: ClientState)
    ensures Wellformed(s) ==> Wellformed(r)
  {
    assert forall h :: h in s.timers[s.nextHandle := Timer(GatewayBeat, interval)] ==> h == s.nextHandle || h in s.timers;
    s.(timers := s.timers[s.nextHandle := Timer(GatewayBeat, interval)],
       nextHandle := s.nextHandle + 1, heartbeat := Some(s.nextHandle))
  }

  /** `sendHeartbeat`: op 1 carrying the current sequence number. */
  function SendHeartbeatOn(s: ClientState): (r: ClientState)
    ensures Wellformed(s) ==> Wellformed(r)
  {
    s.(ws := SendOn(s.ws, Heartbeat(s.sequenceNumber)))
  }

  /** `handleDispatch(t, d)` */
  function DispatchOn(s: ClientState, t: Option<string>, d: Data): (r: ClientState)
    ensures Wellformed(s) ==> Wellformed(r)
  {
    if t == Some("READY") then
      EmitOn(s.(sessionId := d.sessionId, user := d.user, guilds := d.guilds.GetOr([])), "ready", None)
    else if t == Some("GUILD_CREATE") then EmitOn(s.(guilds := s.guilds + [d]), "guildCreate", Some(d))
    else if t == Some("MESSAGE_CREATE") then EmitOn(s, "messageCreate", Some(d))
    else if t == Some("VOICE_STATE_UPDATE") then EmitOn(s, "voiceStateUpdate", Some(d))
    else if t == Some("VOICE_SERVER_UPDATE") then EmitOn(s, "voiceServerUpdate", Some(d))
    else s
  }

  /** `handleMessage(frame)`: the sequence number first, then Hello (10), Dispatch (0), Heartbeat (1). */
  function ReceiveOn(s: ClientState, f: Frame): (r: ClientState)
    ensures Wellformed(s) ==> Wellformed(r)
  {
    var s1 := s.(sequenceNumber := NextSequence(s.sequenceNumber, f.s));
    if f.op == 10 then StartHeartbeatOn(s1, f.d.heartbeatInterval)
    else if f.op == 0 then DispatchOn(s1, f.t, f.d)
    else if f.op == 1 then SendHeartbeatOn(s1)
    else s1
  }

  /** READY stores the session and the user and replaces the guild list (an absent list gives []). */
  lemma ReadyReplacesGuilds(s: ClientState, d: Data)
    ensures var r := DispatchOn(s, Some("READY"), d);
      r.sessionId == d.sessionId && r.user == d.user
      && r.guilds == (if d.guilds.Some? then d.guilds.value else [])
  {
  }

  /** GUILD_CREATE appends exactly one guild, the dispatched one, and keeps the others in order. */
  lemma GuildCreateAppendsOne(s: ClientState, d: Data)
    ensures var r := DispatchOn(s, Some("GUILD_CREATE"), d);
      |r.guilds| == |s.guilds| + 1 && r.guilds[..|s.guilds|] == s.guilds && r.guilds[|s.guilds|] == d
  {
    var r := DispatchOn(s, Some("GUILD_CREATE"), d);
    assert r.guilds == s.guilds + [d];
  }

  /** No dispatch touches the sockets, the timers, the token, the sequence number or the registry. */
  lemma DispatchKeepsConnection(s: ClientState, t: Option<string>, d: Data)
    ensures var r := DispatchOn(s, t, d);
      r.ws == s.ws && r.voiceWs == s.voiceWs && r.timers == s.timers && r.token == s.token
      && r.sequenceNumber == s.sequenceNumber && r.handlers == s.handlers
      && r.calls[..|s.calls|] == s.calls
  {
    var s1 := if t == Some("READY") then s.(sessionId := d.sessionId, user := d.user, guilds := d.guilds.GetOr([]))
              else if t == Some("GUILD_CREATE") then s.(guilds := s.guilds + [d])
              else s;
    var r := DispatchOn(s, t, d);
    assert r == s || exists e, a :: r == EmitOn(s1, e, a);
  }

  /** Whatever the opcode, the sequence number after a frame depends only on its `s`. */
  lemma ReceiveSequence(s: ClientState, f: Frame)
    ensures ReceiveOn(s, f).sequenceNumber == NextSequence(s.sequenceNumber, f.s)
  {
    DispatchKeepsConnection(s.(sequenceNumber := NextSequence(s.sequenceNumber, f.s)), f.t, f.d);
  }

  /** An incoming op 1 sends one heartbeat, carrying the sequence number this frame left. */
  lemma HeartbeatEchoesSequence(s: ClientState, f: Frame)
    requires f.op == 1 && s.ws.Some?
    ensures ReceiveOn(s, f).ws
      == Some(s.ws.value.(sent := s.ws.value.sent + [Heartbeat(NextSequence(s.sequenceNumber, f.s))]))
  {
  }

  /**
   * A Hello starts a new gateway interval and records it; any interval started before stays
   * live, so two Hello frames leave two gateway heartbeats running.
   */
  lemma SecondHelloLeaks(s: ClientState, f1: Frame, f2: Frame)
    requires Wellformed(s) && f1.op == 10 && f2.op == 10
    ensures var r := ReceiveOn(ReceiveOn(s, f1), f2);
      Beats(s, GatewayBeat) + {s.nextHandle, s.nextHandle + 1} == Beats(r, GatewayBeat)
      && r.heartbeat == Some(s.nextHandle + 1)
  {
    var r1 := ReceiveOn(s, f1);
    var r := ReceiveOn(r1, f2);
    assert r1.timers == s.timers[s.nextHandle := Timer(GatewayBeat, f1.d.heartbeatInterval)];
    assert r.timers == r1.timers[s.nextHandle + 1 := Timer(GatewayBeat, f2.d.heartbeatInterval)];
  }

  // ---------------------------------------------------------------------------------------
  // Voice sub-session

  /**
   * `connectToVoiceChannel`: None (the promise is rejected) without a gateway socket; otherwise
   * op 4 asks to join the channel and a "voiceServerUpdate" listener is registered.
   */
  function JoinVoiceOn(s: ClientState, guildId: string, channelId: string, listener: HandlerId): (r: Option<ClientState>)
    ensures r.None? <==> s.ws.None?
    ensures Wellformed(s) && r.Some? ==> Wellformed(r.value)
  {
    if s.ws.None? then None
    else
      var sent := s.(ws := SendOn(s.ws, VoiceStateUpdate(Some(guildId), Some(channelId), false, false)));
      Some(Register(sent, "voiceServerUpdate", listener))
  }

  /** `connectToVoiceGateway`: the previous voice socket is closed and replaced. */
  function VoiceGatewayOn(s: ClientState, endpoint: string): (r: ClientState)
    ensures Wellformed(s) ==> Wellformed(r)
  {
    s.(voiceWs := Some(Socket("wss://" + endpoint, [], false)))
  }

  /** The voice socket's `onopen`: op 0 identifies the user and session. */
  function VoiceOpenOn(s: ClientState, guildId: string, token: string): (r: ClientState)
    ensures Wellformed(s) ==> Wellformed(r)
  {
    var userId := if s.user.Some? then Some(s.user.value.id) else None;
    s.(voiceWs := SendOn(s.voiceWs, VoiceIdentify(guildId, userId, s.sessionId, token)))
  }

  /** The voice socket's `onclose`: the voice interval is cleared and forgotten. */
  function VoiceClosedOn(s: ClientState): (r: ClientState)
    ensures Wellformed(s) ==> Wellformed(r)
  {
    var closed := s.(voiceWs := CloseOn(s.voiceWs), timers := Cleared(s.timers, s.voiceHeartbeat),
                     voiceHeartbeat := None);
    EmitOn(closed, "voiceDisconnected", None)
  }

  /** `startVoiceHeartbeat(interval)`: clears the running voice interval, then starts a new one. */
  function StartVoiceHeartbeatOn(s: ClientState, interval: Option<int>): (r: ClientState)
    ensures Wellformed(s) ==> Wellformed(r)
  {
    var timers := Cleared(s.timers, s.voiceHeartbeat);
    assert forall h :: h in timers[s.nextHandle := Timer(VoiceBeat, interval)] ==> h == s.nextHandle || h in timers;
    s.(timers := timers[s.nextHandle := Timer(VoiceBeat, interval)],
       nextHandle := s.nextHandle + 1, voiceHeartbeat := Some(s.nextHandle))
  }

  /** `sendVoiceHeartbeat`: op 3 carrying the current time. */
  function SendVoiceHeartbeatOn(s: ClientState, now: int): (r: ClientState)
    ensures Wellformed(s) ==> Wellformed(r)
  {
    s.(voiceWs := SendOn(s.voiceWs, VoiceHeartbeat(now)))
  }

  /** `handleVoiceMessage(frame)`: Ready (2), Heartbeat (3), Session Description (4), Speaking (5), Hello (8). */
  function VoiceReceiveOn(s: ClientState, f: Frame, now: int): (r: ClientState)
    ensures Wellformed(s) ==> Wellformed(r)
  {
    if f.op == 2 then
      EmitOn(StartVoiceHeartbeatOn(s.(voiceSessionId := f.d.sessionId), f.d.heartbeatInterval), "voiceReady", Some(f.d))
    else if f.op == 3 then SendVoiceHeartbeatOn(s, now)
    else if f.op == 4 then EmitOn(s, "voiceSessionDescription", Some(f.d))
    else if f.op == 5 then EmitOn(s, "voiceSpeaking", Some(f.d))
    else if f.op == 8 then StartVoiceHeartbeatOn(s, f.d.heartbeatInterval)
    else s
  }

  /** A restarted voice heartbeat replaces the old one: exactly one voice interval runs afterwards. */
  lemma VoiceHeartbeatRestarts(s: ClientState, interval: Option<int>)
    requires Wellformed(s)
    ensures var r := StartVoiceHeartbeatOn(s, interval);
      Beats(r, VoiceBeat) == {s.nextHandle} && r.voiceHeartbeat == Some(s.nextHandle)
      && (s.voiceHeartbeat.Some? ==> s.voiceHeartbeat.value !in r.timers)
  {
    OneVoiceBeat(StartVoiceHeartbeatOn(s, interval));
  }

  /** `setVoiceState(muted, deafened)`: records the pair; with a voice socket, sends op 5. */
  function SetVoiceStateOn(s: ClientState, muted: bool, deafened: bool): (r: ClientState)
    ensures Wellformed(s) ==> Wellformed(r)
  {
    s.(voiceState := Some(VoiceState(muted, deafened)),
       voiceWs := SendOn(s.voiceWs, Speaking(if muted then 0 else 1, 0, 0)))
  }

  /** The speaking flag sent is 0 exactly when muted, and the recorded state is the pair given. */
  lemma SetVoiceStateSpeaking(s: ClientState, muted: bool, deafened: bool)
    requires s.voiceWs.Some?
    ensures var r := SetVoiceStateOn(s, muted, deafened);
      r.voiceState == Some(VoiceState(muted, deafened))
      && exists flag :: r.voiceWs.value.sent == s.voiceWs.value.sent + [Speaking(flag, 0, 0)]
                        && (flag == 0 <==> muted) && (flag == 1 <==> !muted)
  {
    var flag := if muted then 0 else 1;
    assert SetVoiceStateOn(s, muted, deafened).voiceWs.value.sent == s.voiceWs.value.sent + [Speaking(flag, 0, 0)];
  }

  /** `disconnectFromVoiceChannel`: op 4 with no channel, then the whole voice session is dropped. */
  function LeaveVoiceOn(s: ClientState): (r: ClientState)
    ensures Wellformed(s) ==> Wellformed(r)
  {
    EmitOn(DropVoiceOn(s), "voiceDisconnected", None)
  }

  /** The part of `disconnectFromVoiceChannel` before the event is emitted. */
  function DropVoiceOn(s: ClientState): (r: ClientState)
    ensures Wellformed(s) ==> Wellformed(r)
  {
    s.(ws := SendOn(s.ws, VoiceStateUpdate(None, None, false, false)),
       voiceWs := None, timers := Cleared(s.timers, s.voiceHeartbeat),
       voiceHeartbeat := None, voiceSessionId := None, voiceState := None)
  }

  /** Leaving voice leaves no voice socket, session, state or running voice interval. */
  lemma LeaveVoiceClears(s: ClientState)
    requires Wellformed(s)
    ensures var r := LeaveVoiceOn(s);
      r.voiceWs.None? && r.voiceHeartbeat.None? && r.voiceSessionId.None? && r.voiceState.None?
      && Beats(r, VoiceBeat) == {}
      && r.token == s.token && r.sessionId == s.sessionId && r.guilds == s.guilds
  {
    OneVoiceBeat(LeaveVoiceOn(s));
  }

  /** `disconnect`: leaves voice, then drops the gateway socket, its heartbeat and the session. */
  function DisconnectOn(s: ClientState): (r: ClientState)
    ensures Wellformed(s) ==> Wellformed(r)
  {
    DropSessionOn(LeaveVoiceOn(s))
  }

  /** The part of `disconnect` after the voice session is left. */
  function DropSessionOn(s: ClientState): (r: ClientState)
    ensures Wellformed(s) ==> Wellformed(r)
  {
    s.(ws := None, timers := Cleared(s.timers, s.heartbeat), heartbeat := None,
       token := None, sessionId := None, user := None, guilds := [])
  }

  /**
   * After `disconnect` nothing of the session is left and the recorded heartbeat no longer runs;
   * the sequence number and the registered handlers are kept.
   */
  lemma DisconnectClears(s: ClientState)
    requires Wellformed(s)
    ensures var r := DisconnectOn(s);
      r.ws.None? && r.voiceWs.None? && r.heartbeat.None? && r.voiceHeartbeat.None?
      && r.token.None? && r.sessionId.None? && r.voiceSessionId.None? && r.user.None?
      && r.guilds == [] && r.voiceState.None? && Beats(r, VoiceBeat) == {}
      && (s.heartbeat.Some? ==> s.heartbeat.value !in r.timers)
      && r.sequenceNumber == s.sequenceNumber && r.handlers == s.handlers
  {
    LeaveVoiceClears(s);
    OneVoiceBeat(DisconnectOn(s));
  }

  /** A live interval fires: a gateway timer sends `sendHeartbeat`, a voice timer `sendVoiceHeartbeat`. */
  function FireOn(s: ClientState, h: nat, now: int): (r: ClientState)
    requires h in s.timers
    ensures Wellformed(s) ==> Wellformed(r)
  {
    match s.timers[h].beat
    case GatewayBeat => SendHeartbeatOn(s)
    case VoiceBeat => SendVoiceHeartbeatOn(s, now)
  }

  // ---------------------------------------------------------------------------------------
  // The client object

  class SpacebarClient {
    const endpoint: string
    const configToken: Option<string>
    var ws: Option<Socket>
    var voiceWs: Option<Socket>
    var token: Option<string>
    var heartbeat: Option<nat>
    var voiceHeartbeat: Option<nat>
    var timers: map<nat, Timer>
    var nextHandle: nat
    var sequenceNumber: Option<int>
    var sessionId: Option<string>
    var voiceSessionId: Option<string>
    var user: Option<User>
    var guilds: seq<Data>
    var handlers: map<string, seq<HandlerId>>
    var calls: seq<Invocation>
    var voiceState: Option<VoiceState>

    function State(): ClientState
      reads this
    {
      ClientState(ws, voiceWs, token, heartbeat, voiceHeartbeat, timers, nextHandle, sequenceNumber,
                  sessionId, voiceSessionId, user, guilds, handlers, calls, voiceState)
    }

    predicate Valid()
      reads this
    {
      Wellformed(State())
    }

    constructor(endpoint: string, configToken: Option<string>)
      ensures this.endpoint == endpoint && this.configToken == configToken
      ensures State() == Initial && Valid()
    {
      this.endpoint := endpoint;
      this.configToken := configToken;
      ws, voiceWs, token := None, None, None;
      heartbeat, voiceHeartbeat, timers, nextHandle := None, None, map[], 1;
      sequenceNumber, sessionId, voiceSessionId, user := None, None, None, None;
      guilds, handlers, calls, voiceState := [], map[], [], None;
    }

    method On(event: string, handler: HandlerId)
      requires Valid()
      modifies this
      ensures State() == Register(old(State()), event, handler) && Valid()
    {
      handlers := handlers[event := Registered(handlers, event) + [handler]];
    }

    method Emit(event: string, arg: Option<Data>)
      requires Valid()
      modifies this
      ensures State() == EmitOn(old(State()), event, arg) && Valid()
    {
      var hs := Registered(handlers, event);
      var log := calls;
      var i := 0;
      while i < |hs|
        invariant 0 <= i <= |hs|
        invariant log == calls + Invocations(hs[..i], event, arg)
      {
        assert hs[..i + 1] == hs[..i] + [hs[i]];
        log := log + [Invocation(hs[i], event, arg)];
        i := i + 1;
      }
      assert hs[..i] == hs;
      calls := log;
    }

    method Initialize(token: Option<string>) returns (ok: bool)
      requires Valid()
      modifies this
      ensures ok <==> InitialToken(configToken, token).Some?
      ensures !ok ==> State() == old(State())
      ensures ok ==> State() == old(State()).(token := InitialToken(configToken, token))
      ensures Valid()
    {
      if !Truthy(token) && !Truthy(configToken) {
        return false;
      }
      this.token := if Truthy(token) then token else configToken;
      return true;
    }

    method Login(token: string, ready: HandlerId)
      requires Valid()
      modifies this
      ensures State() == LoginOn(old(State()), endpoint, token, ready) && Valid()
    {
      this.token := Some(token);
      ws := Some(Socket(GatewayUrl(endpoint), [], false));
      On("ready", ready);
    }

    method GatewayOpened()
      requires Valid()
      modifies this
      ensures State() == GatewayOpenOn(old(State())) && Valid()
    {
      if ws.None? || !Truthy(token) {
        return;
      }
      ws := SendOn(ws, Identify(token.value, Intents));
    }

    method GatewayClosed()
      requires Valid()
      modifies this
      ensures State() == GatewayClosedOn(old(State())) && Valid()
    {
      ws := CloseOn(ws);
      if heartbeat.Some? {
        timers := timers - {heartbeat.value};
      }
    }

    method HandleMessage(f: Frame)
      requires Valid()
      modifies this
      ensures State() == ReceiveOn(old(State()), f) && Valid()
    {
      if TruthyNum(f.s) {
        sequenceNumber := f.s;
      }
      if f.op == 10 {
        StartHeartbeat(f.d.heartbeatInterval);
      } else if f.op == 0 {
        HandleDispatch(f.t, f.d);
      } else if f.op == 1 {
        SendHeartbeat();
      }
    }

    method HandleDispatch(t: Option<string>, d: Data)
      requires Valid()
      modifies this
      ensures State() == DispatchOn(old(State()), t, d) && Valid()
    {
      if t == Some("READY") {
        sessionId := d.sessionId;
        user := d.user;
        guilds := d.guilds.GetOr([]);
        Emit("ready", None);
      } else if t == Some("GUILD_CREATE") {
        guilds := guilds + [d];
        Emit("guildCreate", Some(d));
      } else if t == Some("MESSAGE_CREATE") {
        Emit("messageCreate", Some(d));
      } else if t == Some("VOICE_STATE_UPDATE") {
        Emit("voiceStateUpdate", Some(d));
      } else if t == Some("VOICE_SERVER_UPDATE") {
        Emit("voiceServerUpdate", Some(d));
      }
    }

    method StartHeartbeat(interval: Option<int>)
      requires Valid()
      modifies this
      ensures State() == StartHeartbeatOn(old(State()), interval) && Valid()
    {
      timers := timers[nextHandle := Timer(GatewayBeat, interval)];
      heartbeat := Some(nextHandle);
      nextHandle := nextHandle + 1;
    }

    method SendHeartbeat()
      requires Valid()
      modifies this
      ensures State() == SendHeartbeatOn(old(State())) && Valid()
    {
      if ws.None? {
        return;
      }
      ws := SendOn(ws, Heartbeat(sequenceNumber));
    }

    /** Returns false when the promise is rejected because there is no gateway socket. */
    method ConnectToVoiceChannel(guildId: string, channelId: string, listener: HandlerId) returns (accepted: bool)
      requires Valid()
      modifies this
      ensures var r := JoinVoiceOn(old(State()), guildId, channelId, listener);
        accepted == r.Some? && State() == (if r.Some? then r.value else old(State()))
      ensures Valid()
    {
      if ws.None? {
        return false;
      }
      ws := SendOn(ws, VoiceStateUpdate(Some(guildId), Some(channelId), false, false));
      On("voiceServerUpdate", listener);
      return true;
    }

    method ConnectToVoiceGateway(voiceEndpoint: string)
      requires Valid()
      modifies this
      ensures State() == VoiceGatewayOn(old(State()), voiceEndpoint) && Valid()
    {
      voiceWs := Some(Socket("wss://" + voiceEndpoint, [], false));
    }

    method VoiceOpened(guildId: string, voiceToken: string)
      requires Valid()
      modifies this
      ensures State() == VoiceOpenOn(old(State()), guildId, voiceToken) && Valid()
    {
      var userId := if user.Some? then Some(user.value.id) else None;
      voiceWs := SendOn(voiceWs, VoiceIdentify(guildId, userId, sessionId, voiceToken));
    }

    method VoiceClosed()
      requires Valid()
      modifies this
      ensures State() == VoiceClosedOn(old(State())) && Valid()
    {
      voiceWs := CloseOn(voiceWs);
      if voiceHeartbeat.Some? {
        timers := timers - {voiceHeartbeat.value};
        voiceHeartbeat := None;
      }
      Emit("voiceDisconnected", None);
    }

    method HandleVoiceMessage(f: Frame, now: int)
      requires Valid()
      modifies this
      ensures State() == VoiceReceiveOn(old(State()), f, now) && Valid()
    {
      if f.op == 2 {
        voiceSessionId := f.d.sessionId;
        StartVoiceHeartbeat(f.d.heartbeatInterval);
        Emit("voiceReady", Some(f.d));
      } else if f.op == 3 {
        SendVoiceHeartbeat(now);
      } else if f.op == 4 {
        Emit("voiceSessionDescription", Some(f.d));
      } else if f.op == 5 {
        Emit("voiceSpeaking", Some(f.d));
      } else if f.op == 8 {
        StartVoiceHeartbeat(f.d.heartbeatInterval);
      }
    }

    method StartVoiceHeartbeat(interval: Option<int>)
      requires Valid()
      modifies this
      ensures State() == StartVoiceHeartbeatOn(old(State()), interval) && Valid()
    {
      if voiceHeartbeat.Some? {
        timers := timers - {voiceHeartbeat.value};
      }
      timers := timers[nextHandle := Timer(VoiceBeat, interval)];
      voiceHeartbeat := Some(nextHandle);
      nextHandle := nextHandle + 1;
    }

    method SendVoiceHeartbeat(now: int)
      requires Valid()
      modifies this
      ensures State() == SendVoiceHeartbeatOn(old(State()), now) && Valid()
    {
      if voiceWs.None? {
        return;
      }
      voiceWs := SendOn(voiceWs, VoiceHeartbeat(now));
    }

    method DisconnectFromVoiceChannel()
      requires Valid()
      modifies this
      ensures State() == LeaveVoiceOn(old(State())) && Valid()
    {
      DropVoiceSession();
      Emit("voiceDisconnected", None);
    }

    method DropVoiceSession()
      requires Valid()
      modifies this
      ensures State() == DropVoiceOn(old(State())) && Valid()
    {
      ghost var before := State();
      // `SendOn` and `Cleared` do nothing when there is no socket or no interval.
      ws := SendOn(ws, VoiceStateUpdate(None, None, false, false));
      voiceWs := None;
      timers := Cleared(timers, voiceHeartbeat);
      voiceHeartbeat := None;
      voiceSessionId := None;
      voiceState := None;
      assert State() == DropVoiceOn(before);
    }

    method SetVoiceState(muted: bool, deafened: bool)
      requires Valid()
      modifies this
      ensures State() == SetVoiceStateOn(old(State()), muted, deafened) && Valid()
    {
      voiceState := Some(VoiceState(muted, deafened));
      if voiceWs.Some? {
        voiceWs := SendOn(voiceWs, Speaking(if muted then 0 else 1, 0, 0));
      }
    }

    method Disconnect()
      requires Valid()
      modifies this
      ensures State() == DisconnectOn(old(State())) && Valid()
    {
      DisconnectFromVoiceChannel();
      DropSession();
    }

    /** The part of `disconnect` after the voice session is left. */
    method DropSession()
      requires Valid()
      modifies this
      ensures State() == DropSessionOn(old(State())) && Valid()
    {
      ghost var before := State();
      ws := None;
      timers := Cleared(timers, heartbeat);
      heartbeat := None;
      token := None;
      sessionId := None;
      user := None;
      guilds := [];
      assert State() == DropSessionOn(before);
    }

    /** The callback of the live interval `h` runs. */
    method FireTimer(h: nat, now: int)
      requires Valid() && h in timers
      modifies this
      ensures State() == FireOn(old(State()), h, now) && Valid()
    {
      match timers[h].beat
      case GatewayBeat => SendHeartbeat();
      case VoiceBeat => SendVoiceHeartbeat(now);
    }
  }
}
