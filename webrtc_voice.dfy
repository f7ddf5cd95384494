/**
 * The `useWebRTCVoice` hook: a `VoiceChannelState` record kept next to the shared
 * `WebRTCVoiceManager`. The record updates are functions; the callbacks that call into the
 * manager are methods of a class holding the record and the manager. The two listeners the hook
 * registers on the manager are applied to the reports the manager makes during each call.
 */
module WebRTCVoice {
  import opened Wrappers
  import opened Text
  import opened Media
  import opened VoiceManager
  import opened Volume

  datatype VoiceChannelState = VoiceChannelState(
    channelId: Option<string>,
    isConnected: bool,
    connectedUsers: seq<VoiceUser>,
    isRecording: bool,
    isMuted: bool,
    isDeafened: bool,
    volume: int,
    isConnecting: bool)

  /** The state the hook starts in, and the one every disconnect restores. */
  const Initial := VoiceChannelState(None, false, [], false, false, false, 100, false)

  /** The signed-in account of the auth context: its id and, when it has one, its email. */
  datatype AuthUser = AuthUser(id: string, email: Option<string>)

  /**
   * `user.email?.split('@')[0] || 'User'`: the text before the first '@', or "User" when that
   * is empty or there is no email.
   */
  function Username(email: Option<string>): (r: string)
    ensures r != [] && '@' !in r
    ensures email.Some? && '@' in email.value && IndexOf(email.value, '@') > 0 ==>
      r == email.value[..IndexOf(email.value, '@')]
    ensures email.Some? && '@' !in email.value && email.value != [] ==> r == email.value
    ensures email.None? || email.value == [] || email.value[0] == '@' ==> r == "User"
  {
    if email.Some? && Split(email.value, '@')[0] != [] then Split(email.value, '@')[0] else "User"
  }

  /** The local part of an address is its username, when it is not empty. */
  lemma UsernameOfAddress(local: string, domain: string)
    requires local != [] && '@' !in local
    ensures Username(Some(local + ['@'] + domain)) == local
  {
    var e := local + ['@'] + domain;
    assert e[|local|] == '@' && e[..|local|] == local;
    IndexOfUnique(e, '@', |local|);
  }

  /** `handleUsersUpdate(users)`: the list replaces the connected users. */
  function OnUsersUpdate(s: VoiceChannelState, users: seq<VoiceUser>): (r: VoiceChannelState)
    ensures r.connectedUsers == users && r.(connectedUsers := s.connectedUsers) == s
  {
    s.(connectedUsers := users)
  }

  /** `handleConnectionStateChange(isConnected)`: the flag is stored and connecting is over. */
  function OnConnectionStateChange(s: VoiceChannelState, connected: bool): (r: VoiceChannelState)
    ensures r.isConnected == connected && !r.isConnecting
    ensures r.(isConnected := s.isConnected, isConnecting := s.isConnecting) == s
  {
    s.(isConnected := connected, isConnecting := false)
  }

  /** The listeners applied to what the manager reported, connection states first. */
  function ApplyReports(s: VoiceChannelState, states: seq<bool>, lists: seq<seq<VoiceUser>>): (r: VoiceChannelState)
    ensures states != [] ==> r.isConnected == states[|states| - 1] && !r.isConnecting
    ensures states == [] ==> r.isConnected == s.isConnected && r.isConnecting == s.isConnecting
    ensures lists != [] ==> r.connectedUsers == lists[|lists| - 1]
    ensures lists == [] ==> r.connectedUsers == s.connectedUsers
    ensures r.(isConnected := s.isConnected, isConnecting := s.isConnecting, connectedUsers := s.connectedUsers) == s
    decreases |states| + |lists|
  {
    if states != [] then ApplyReports(OnConnectionStateChange(s, states[0]), states[1..], lists)
    else if lists != [] then ApplyReports(OnUsersUpdate(s, lists[0]), [], lists[1..])
    else s
  }

  /** The first step of `connectToVoiceChannel`: connecting to `channelId`. */
  function ConnectStart(s: VoiceChannelState, channelId: string): (r: VoiceChannelState)
    ensures r.isConnecting && r.channelId == Some(channelId)
    ensures r.(isConnecting := s.isConnecting, channelId := s.channelId) == s
  {
    s.(isConnecting := true, channelId := Some(channelId))
  }

  /** The `catch` of `connectToVoiceChannel`: neither connecting nor connected, no channel. */
  function ConnectFailed(s: VoiceChannelState): (r: VoiceChannelState)
    ensures !r.isConnecting && !r.isConnected && r.channelId.None?
    ensures r.(isConnecting := s.isConnecting, isConnected := s.isConnected, channelId := s.channelId) == s
  {
    s.(isConnecting := false, isConnected := false, channelId := None)
  }

  /** `setVolume`: the clamped volume, nothing else. */
  function SetVolume(s: VoiceChannelState, volume: int): (r: VoiceChannelState)
    ensures 0 <= r.volume <= 100 && r.volume == Clamp(volume)
    ensures r.(volume := s.volume) == s
  {
    s.(volume := Clamp(volume))
  }

  class WebRTCVoiceHook {
    const manager: WebRTCVoiceManager
    var state: VoiceChannelState

    /**
     * The hook's record agrees with the manager: the volume is in range, the record says
     * connected exactly when the manager has a channel, and then it is the same channel; a
     * manager with a channel has a local stream.
     */
    ghost predicate Valid()
      reads this, manager
    {
      0 <= state.volume <= 100
      && (state.isConnected <==> manager.IsConnected())
      && (state.isConnected ==> state.channelId == manager.currentChannelId)
      && (manager.IsConnected() ==> manager.localStream.Some?)
    }

    /** Mounting the hook over a manager that is not in a channel. */
    constructor(manager: WebRTCVoiceManager)
      requires manager.currentChannelId.None?
      ensures this.manager == manager && state == Initial && Valid()
    {
      this.manager := manager;
      state := Initial;
    }

    /**
     * `connectToVoiceChannel(channelId)`: nothing at all without a signed-in user. Otherwise
     * the record starts connecting, the manager connects under the email's username
     * (`acquired`: the microphone stream, when it has to be requested), and the record takes
     * what the manager reports; when the manager throws, the record is reset to disconnected.
     */
    method ConnectToVoiceChannel(channelId: string, user: Option<AuthUser>, acquired: Option<MediaStream>)
      requires Valid()
      modifies this, manager
      ensures Valid()
      ensures user.None? ==> state == old(state) && unchanged(manager)
      ensures user.Some? && (old(manager.localStream).Some? || acquired.Some?) ==>
        state == old(state).(channelId := Some(channelId), isConnected := true, isConnecting := false,
                             connectedUsers := [VoiceUser(user.value.id, Username(user.value.email), manager.isMuted, false, manager.isDeafened)])
      ensures user.Some? && old(manager.localStream).None? && acquired.None? ==>
        state == old(state).(channelId := None, isConnected := false, isConnecting := false)
    {
      if user.None? {
        return;
      }
      state := ConnectStart(state, channelId);
      var name := Username(user.value.email);
      var states, lists := |manager.stateReports|, |manager.userReports|;
      var ok := manager.ConnectToChannel(channelId, user.value.id, name, acquired);
      if ok {
        state := ApplyReports(state, manager.stateReports[states..], manager.userReports[lists..]);
      } else {
        state := ConnectFailed(state);
      }
    }

    /**
     * `disconnectFromVoiceChannel`: the manager leaves the channel, then the record is reset.
     * The manager keeps its mute and deafen flags while the record goes back to unmuted.
     */
    method DisconnectFromVoiceChannel()
      requires Valid()
      modifies this, manager, manager.Peers(), manager.Channels(), manager.LocalTracks()
      ensures Valid()
      ensures state == Initial && !manager.IsConnected()
      ensures manager.isMuted == old(manager.isMuted) && manager.isDeafened == old(manager.isDeafened)
    {
      manager.DisconnectFromChannel();
      state := Initial;
    }

    /** `toggleMute`: the record stores the flag the manager returns. */
    method ToggleMute()
      requires Valid()
      modifies this, manager, manager.LocalTracks()
      ensures Valid()
      ensures state.isMuted == manager.isMuted && manager.isMuted == !old(manager.isMuted)
      ensures state == old(state).(isMuted := manager.isMuted)
    {
      var muted := manager.ToggleMute();
      state := state.(isMuted := muted);
    }

    /**
     * `toggleDeafen`: the record stores the deafen flag the manager returns and the mute flag
     * the manager then has, so deafening shows as muted.
     */
    method ToggleDeafen()
      requires Valid()
      modifies this, manager, manager.LocalTracks()
      ensures Valid()
      ensures state.isDeafened == manager.isDeafened && manager.isDeafened == !old(manager.isDeafened)
      ensures state.isMuted == manager.isMuted
      ensures state.isDeafened ==> state.isMuted
      ensures state == old(state).(isDeafened := manager.isDeafened, isMuted := manager.isMuted)
    {
      var deafened := manager.ToggleDeafen();
      var muted := manager.isMuted;
      state := state.(isDeafened := deafened, isMuted := muted);
    }

    /** `setVolume(volume)` */
    method SetVolumeTo(volume: int)
      requires Valid()
      modifies this
      ensures Valid() && state == SetVolume(old(state), volume)
    {
      state := SetVolume(state, volume);
    }

    /** The unmount cleanup: the manager leaves its channel if it is in one. */
    method Unmount()
      modifies manager, manager.Peers(), manager.Channels(), manager.LocalTracks()
      ensures !manager.IsConnected()
      ensures old(manager.IsConnected()) ==> manager.connections == map[] && manager.localStream.None?
      ensures !old(manager.IsConnected()) ==> unchanged(manager)
    {
      if manager.IsConnected() {
        manager.DisconnectFromChannel();
      }
    }
  }
}
