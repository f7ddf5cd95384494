/**
 * `WebRTCVoiceManager`: the voice session of the WebRTC client. It holds the local microphone
 * stream, the current channel, the mute and deafen flags and a map of peer connections, and
 * reports the participant list and the connection state through two callbacks, modelled as
 * the logs of the values passed to them.
 */
module VoiceManager {
  import opened Wrappers
  import opened Media

  /** A participant as the manager reports it. */
  datatype VoiceUser = VoiceUser(id: string, username: string, isMuted: bool, isSpeaking: bool, isDeafened: bool)

  /** An entry of the connection map: the remote user, the peer connection, its data channel. */
  datatype VoiceConnection = VoiceConnection(userId: string, peer: PeerConnection, dataChannel: Option<DataChannel>)

  function Sum(samples: seq<nat>): nat {
    if samples == [] then 0 else Sum(samples[..|samples| - 1]) + samples[|samples| - 1]
  }

  /**
   * The speaking test of the analyser loop, on one frame of frequency bytes (never empty: the
   * analyser has at least one bin). The mean is compared in integers: `sum > 10 * length`.
   */
  predicate IsSpeaking(samples: seq<nat>, muted: bool)
    requires |samples| > 0
  {
    Sum(samples) > 10 * |samples| && !muted
  }

  /** The integer comparison is the comparison of the mean with 10 that the source makes. */
  lemma SpeakingIffMeanAboveTen(samples: seq<nat>, muted: bool)
    requires |samples| > 0
    ensures IsSpeaking(samples, muted) <==> (Sum(samples) as real) / (|samples| as real) > 10.0 && !muted
  {
    MeanAbove(Sum(samples) as real, |samples| as real, 10.0);
  }

  lemma PositiveProduct(a: real, b: real)
    requires a > 0.0 && b > 0.0
    ensures a * b > 0.0
  {
  }

  /** For a positive count, the mean exceeds `k` iff the total exceeds `k` times the count. */
  lemma MeanAbove(total: real, n: real, k: real)
    requires n > 0.0
    ensures total / n > k <==> total > k * n
  {
    var mean := total / n;
    assert mean * n == total;
    if mean > k {
      PositiveProduct(mean - k, n);
      assert (mean - k) * n == mean * n - k * n;
    } else if k > mean {
      PositiveProduct(k - mean, n);
      assert (k - mean) * n == k * n - mean * n;
    }
  }

  ghost function PeersOf(conns: map<string, VoiceConnection>): set<PeerConnection> {
    set k | k in conns :: conns[k].peer
  }

  ghost function ChannelsOf(conns: map<string, VoiceConnection>): set<DataChannel> {
    set k | k in conns && conns[k].dataChannel.Some? :: conns[k].dataChannel.value
  }

  /** `connections.forEach(...)`: closes each peer connection and, when there is one, its data channel. */
  method CloseAll(conns: map<string, VoiceConnection>)
    modifies PeersOf(conns), ChannelsOf(conns)
    ensures forall p :: p in PeersOf(conns) ==> p.closed
    ensures forall c :: c in ChannelsOf(conns) ==> c.closed
  {
    var keys := conns.Keys;
    while keys != {}
      invariant keys <= conns.Keys
      invariant forall k :: k in conns && k !in keys ==> conns[k].peer.closed
      invariant forall k :: k in conns && k !in keys && conns[k].dataChannel.Some? ==>
                  conns[k].dataChannel.value.closed
      decreases keys
    {
      var k :| k in keys;
      var c := conns[k];
      c.peer.closed := true;
      if c.dataChannel.Some? {
        c.dataChannel.value.closed := true;
      }
      keys := keys - {k};
    }
  }

  class WebRTCVoiceManager {
    var connections: map<string, VoiceConnection>
    var localStream: Option<MediaStream>
    var currentChannelId: Option<string>
    var isMuted: bool
    var isDeafened: bool
    /** The lists passed to the users-update callback, oldest first. */
    var userReports: seq<seq<VoiceUser>>
    /** The flags passed to the connection-state callback, oldest first. */
    var stateReports: seq<bool>

    /** The tracks of the local stream, if there is one. */
    function LocalTracks(): seq<Track>
      reads this
    {
      if localStream.Some? then localStream.value.tracks else []
    }

    ghost function Peers(): set<PeerConnection>
      reads this
    {
      PeersOf(connections)
    }

    ghost function Channels(): set<DataChannel>
      reads this
    {
      ChannelsOf(connections)
    }

    constructor()
      ensures connections == map[] && localStream.None? && currentChannelId.None?
      ensures !isMuted && !isDeafened && userReports == [] && stateReports == []
    {
      connections := map[];
      localStream := None;
      currentChannelId := None;
      isMuted := false;
      isDeafened := false;
      userReports := [];
      stateReports := [];
    }

    /** `isConnected()` */
    function IsConnected(): (b: bool)
      reads this
      ensures b <==> currentChannelId.Some?
    {
      currentChannelId.Some?
    }

    /**
     * `connectToChannel`: the microphone stream is requested only when there is none
     * (`acquired` is the result, None when the request is refused, and then the error is
     * rethrown with nothing changed). Otherwise the channel becomes current, the state callback
     * gets true and the user list is the local user alone.
     */
    method ConnectToChannel(channelId: string, userId: string, username: string, acquired: Option<MediaStream>)
      returns (ok: bool)
      modifies this
      ensures ok <==> old(localStream).Some? || acquired.Some?
      ensures !ok ==> localStream == old(localStream) && currentChannelId == old(currentChannelId)
                      && userReports == old(userReports) && stateReports == old(stateReports)
      ensures ok ==> currentChannelId == Some(channelId)
                     && localStream == (if old(localStream).Some? then old(localStream) else acquired)
                     && stateReports == old(stateReports) + [true]
                     && userReports == old(userReports) + [[VoiceUser(userId, username, isMuted, false, isDeafened)]]
      ensures ok ==> IsConnected()
      ensures isMuted == old(isMuted) && isDeafened == old(isDeafened) && connections == old(connections)
    {
      if localStream.None? {
        if acquired.None? {
          return false;
        }
        localStream := acquired;
      }
      currentChannelId := Some(channelId);
      stateReports := stateReports + [true];
      userReports := userReports + [[VoiceUser(userId, username, isMuted, false, isDeafened)]];
      return true;
    }

    /**
     * `disconnectFromChannel`: every peer connection and data channel is closed and the map
     * emptied, the local tracks are stopped and the stream dropped, the channel cleared, and the
     * callbacks get false and the empty list.
     */
    method DisconnectFromChannel()
      modifies this, Peers(), Channels(), LocalTracks()
      ensures forall p :: p in old(Peers()) ==> p.closed
      ensures forall c :: c in old(Channels()) ==> c.closed
      ensures forall t :: t in old(LocalTracks()) ==> t.stopped
      ensures connections == map[] && localStream.None? && currentChannelId.None? && !IsConnected()
      ensures stateReports == old(stateReports) + [false] && userReports == old(userReports) + [[]]
      ensures isMuted == old(isMuted) && isDeafened == old(isDeafened)
    {
      CloseAll(connections);
      connections := map[];
      if localStream.Some? {
        StopAll(localStream.value.tracks);
        localStream := None;
      }
      currentChannelId := None;
      stateReports := stateReports + [false];
      userReports := userReports + [[]];
    }

    /** `toggleMute`: flips the flag, returns it, and enables the audio tracks exactly when unmuted. */
    method ToggleMute() returns (muted: bool)
      modifies this, LocalTracks()
      ensures isMuted == !old(isMuted) && muted == isMuted
      ensures localStream == old(localStream) && currentChannelId == old(currentChannelId)
      ensures isDeafened == old(isDeafened) && connections == old(connections)
      ensures userReports == old(userReports) && stateReports == old(stateReports)
      ensures forall t :: t in LocalTracks() ==> t.enabled == (if t.kind == Audio then !isMuted else old(t.enabled))
      ensures forall t :: t in LocalTracks() ==> t.stopped == old(t.stopped)
    {
      isMuted := !isMuted;
      if localStream.Some? {
        SetAudioEnabled(localStream.value.tracks, !isMuted);
      }
      return isMuted;
    }

    /**
     * `toggleDeafen`: flips the flag and returns it; deafening also mutes and disables the audio
     * tracks, undeafening changes neither the mute flag nor the tracks.
     */
    method ToggleDeafen() returns (deafened: bool)
      modifies this, LocalTracks()
      ensures isDeafened == !old(isDeafened) && deafened == isDeafened
      ensures isMuted == (isDeafened || old(isMuted))
      ensures localStream == old(localStream) && currentChannelId == old(currentChannelId)
      ensures connections == old(connections)
      ensures userReports == old(userReports) && stateReports == old(stateReports)
      ensures forall t :: t in LocalTracks() ==>
                t.enabled == (if isDeafened && t.kind == Audio then false else old(t.enabled))
      ensures forall t :: t in LocalTracks() ==> t.stopped == old(t.stopped)
    {
      isDeafened := !isDeafened;
      if isDeafened {
        isMuted := true;
        if localStream.Some? {
          SetAudioEnabled(localStream.value.tracks, false);
        }
      }
      return isDeafened;
    }
  }
}
