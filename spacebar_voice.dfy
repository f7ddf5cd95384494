/**
 * The `useSpacebarVoice` hook: a `VoiceChannelState` record that each callback maps to a new
 * record, next to the gateway client it drives. Each transition takes the hook's state and the
 * client's state and returns both; the client side is the gateway model's own transition.
 */
module SpacebarVoice {
  import opened Wrappers
  import opened Gateway
  import opened VoiceManager
  import opened Volume

  datatype VoiceChannelState = VoiceChannelState(
    channelId: Option<string>,
    isConnected: bool,
    connectedUsers: seq<VoiceUser>,
    isRecording: bool,
    isMuted: bool,
    isDeafened: bool,
    volume: int)

  /** The state the hook starts in, and the one every disconnect restores. */
  const Initial := VoiceChannelState(None, false, [], false, false, false, 100)

  /** What every state reachable from `Initial` satisfies. */
  predicate Consistent(v: VoiceChannelState) {
    0 <= v.volume <= 100
    && (v.isConnected <==> v.channelId.Some?)
    && (!v.isConnected ==> v.connectedUsers == [])
  }

  /** The hook's state together with the gateway client's. */
  datatype Both = Both(hook: VoiceChannelState, client: ClientState)

  /**
   * `connectToVoiceChannel(channelId)`: with a logged-in client user, the channel is joined
   * (simulated) with the local user alone in the list; without one the error path clears the
   * connection fields. Mute, deafen, recording and volume are untouched either way, and the
   * client is only read.
   */
  function Connect(v: VoiceChannelState, client: ClientState, channelId: string): (r: VoiceChannelState)
    ensures r.isConnected <==> client.user.Some?
    ensures r.isConnected ==>
      (r.channelId == Some(channelId)
       && r.connectedUsers == [VoiceUser(client.user.value.id, client.user.value.username, false, false, false)])
    ensures !r.isConnected ==> r.channelId.None? && r.connectedUsers == []
    ensures r.isMuted == v.isMuted && r.isDeafened == v.isDeafened
    ensures r.isRecording == v.isRecording && r.volume == v.volume
    ensures Consistent(v) ==> Consistent(r)
  {
    match client.user
    case None => v.(isConnected := false, channelId := None, connectedUsers := [])
    case Some(u) =>
      v.(channelId := Some(channelId), isConnected := true,
         connectedUsers := [VoiceUser(u.id, u.username, false, false, false)])
  }

  /** `disconnectFromVoiceChannel`: the client leaves the voice channel, the hook resets. */
  function Disconnect(b: Both): (r: Both)
    ensures r.hook == Initial && Consistent(r.hook)
    ensures r.client == LeaveVoiceOn(b.client)
  {
    Both(Initial, LeaveVoiceOn(b.client))
  }

  /** `toggleMute`: the client is told the new pair, and the hook stores the same pair. */
  function ToggleMute(b: Both): (r: Both)
    ensures r.hook.isMuted == !b.hook.isMuted
    ensures r.hook.(isMuted := b.hook.isMuted) == b.hook
    ensures r.client == SetVoiceStateOn(b.client, r.hook.isMuted, r.hook.isDeafened)
    ensures Consistent(b.hook) ==> Consistent(r.hook)
  {
    var muted := !b.hook.isMuted;
    Both(b.hook.(isMuted := muted), SetVoiceStateOn(b.client, muted, b.hook.isDeafened))
  }

  /**
   * `toggleDeafen`: deafening also mutes, undeafening keeps the mute flag; the client is told
   * the new pair, and the hook stores the same pair.
   */
  function ToggleDeafen(b: Both): (r: Both)
    ensures r.hook.isDeafened == !b.hook.isDeafened
    ensures r.hook.isDeafened ==> r.hook.isMuted
    ensures !r.hook.isDeafened ==> r.hook.isMuted == b.hook.isMuted
    ensures r.hook.(isMuted := b.hook.isMuted, isDeafened := b.hook.isDeafened) == b.hook
    ensures r.client == SetVoiceStateOn(b.client, r.hook.isMuted, r.hook.isDeafened)
    ensures Consistent(b.hook) ==> Consistent(r.hook)
  {
    var deafened := !b.hook.isDeafened;
    var muted := if deafened then true else b.hook.isMuted;
    Both(b.hook.(isDeafened := deafened, isMuted := muted), SetVoiceStateOn(b.client, muted, deafened))
  }

  /** `setVolume`: the clamped volume, nothing else. */
  function SetVolume(v: VoiceChannelState, volume: int): (r: VoiceChannelState)
    ensures 0 <= r.volume <= 100 && r.volume == Clamp(volume)
    ensures r.(volume := v.volume) == v
    ensures Consistent(v) ==> Consistent(r)
  {
    v.(volume := Clamp(volume))
  }

  /** Toggling mute twice restores the hook's state. */
  lemma ToggleMuteTwice(b: Both)
    ensures ToggleMute(ToggleMute(b)).hook == b.hook
  {
  }

  /** After either toggle, the client's recorded voice state is the hook's (muted, deafened) pair. */
  lemma ClientAgreesWithHook(b: Both, deafen: bool)
    ensures var r := if deafen then ToggleDeafen(b) else ToggleMute(b);
      r.client.voiceState == Some(VoiceState(r.hook.isMuted, r.hook.isDeafened))
  {
  }

  /** One callback of the hook. */
  datatype Action =
    | ConnectTo(channelId: string)
    | DisconnectAll
    | ToggleMuteAction
    | ToggleDeafenAction
    | SetVolumeTo(volume: int)

  function Step(b: Both, a: Action): Both {
    match a
    case ConnectTo(c) => Both(Connect(b.hook, b.client, c), b.client)
    case DisconnectAll => Disconnect(b)
    case ToggleMuteAction => ToggleMute(b)
    case ToggleDeafenAction => ToggleDeafen(b)
    case SetVolumeTo(x) => Both(SetVolume(b.hook, x), b.client)
  }

  function Run(b: Both, actions: seq<Action>): Both
    decreases |actions|
  {
    if actions == [] then b else Run(Step(b, actions[0]), actions[1..])
  }

  /**
   * Whatever sequence of callbacks runs, the hook's volume stays in [0, 100], it is
   * connected exactly when it has a channel, and it lists no users when not connected.
   */
  lemma {:induction false} RunConsistent(b: Both, actions: seq<Action>)
    requires Consistent(b.hook)
    ensures Consistent(Run(b, actions).hook)
    decreases |actions|
  {
    if actions != [] {
      RunConsistent(Step(b, actions[0]), actions[1..]);
    }
  }
}
