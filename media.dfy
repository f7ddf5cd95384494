/**
 * The browser media objects the voice code manipulates in place: tracks with their `enabled`
 * flag, streams, peer connections, data channels and audio elements. Only the state the voice
 * code reads or writes is kept; the objects themselves are opaque handles.
 */
module Media {
  import opened Wrappers

  datatype TrackKind = Audio | Video

  /** A `MediaStreamTrack`: its kind, whether it is enabled and whether it was stopped. */
  class Track {
    const kind: TrackKind
    var enabled: bool
    var stopped: bool

    constructor(kind: TrackKind)
      ensures this.kind == kind && enabled && !stopped
    {
      this.kind := kind;
      enabled := true;
      stopped := false;
    }
  }

  /** A `MediaStream`: the tracks it was created with. */
  class MediaStream {
    const tracks: seq<Track>

    constructor(tracks: seq<Track>)
      ensures this.tracks == tracks
    {
      this.tracks := tracks;
    }
  }

  /** An `RTCPeerConnection`: the tracks added to it, and whether it was closed. */
  class PeerConnection {
    var senders: seq<Track>
    var closed: bool

    constructor()
      ensures senders == [] && !closed
    {
      senders := [];
      closed := false;
    }
  }

  /** An `RTCDataChannel`, reduced to whether it was closed. */
  class DataChannel {
    var closed: bool

    constructor()
      ensures !closed
    {
      closed := false;
    }
  }

  /** An `HTMLAudioElement`: its source stream (`srcObject`), `autoplay` and `volume`. */
  class AudioElement {
    var source: Option<MediaStream>
    var autoplay: bool
    var volume: real

    /** `new Audio()` */
    constructor()
      ensures source.None? && !autoplay && volume == 1.0
    {
      source := None;
      autoplay := false;
      volume := 1.0;
    }
  }

  /**
   * `stream.getAudioTracks().forEach(track => track.enabled = value)`: every audio track gets
   * `value`; video tracks and the `stopped` flags are untouched.
   */
  method SetAudioEnabled(tracks: seq<Track>, value: bool)
    modifies tracks
    ensures forall t :: t in tracks ==> t.enabled == (if t.kind == Audio then value else old(t.enabled))
    ensures forall t :: t in tracks ==> t.stopped == old(t.stopped)
  {
    var i := 0;
    while i < |tracks|
      invariant 0 <= i <= |tracks|
      invariant forall t :: t in tracks[..i] ==> t.enabled == (if t.kind == Audio then value else old(t.enabled))
      invariant forall t :: t in tracks && t !in tracks[..i] ==> t.enabled == old(t.enabled)
      invariant forall t :: t in tracks ==> t.stopped == old(t.stopped)
    {
      assert tracks[..i + 1] == tracks[..i] + [tracks[i]];
      if tracks[i].kind == Audio {
        tracks[i].enabled := value;
      }
      i := i + 1;
    }
  }

  /** `stream.getTracks().forEach(track => track.stop())`: every track ends up stopped. */
  method StopAll(tracks: seq<Track>)
    modifies tracks
    ensures forall t :: t in tracks ==> t.stopped && t.enabled == old(t.enabled)
  {
    var i := 0;
    while i < |tracks|
      invariant 0 <= i <= |tracks|
      invariant forall t :: t in tracks[..i] ==> t.stopped
      invariant forall t :: t in tracks ==> t.enabled == old(t.enabled)
    {
      assert tracks[..i + 1] == tracks[..i] + [tracks[i]];
      tracks[i].stopped := true;
      i := i + 1;
    }
  }

  /** `stream.getTracks().forEach(track => pc.addTrack(track, stream))`: the tracks, in order. */
  method AddTracks(pc: PeerConnection, tracks: seq<Track>)
    modifies pc
    ensures pc.senders == old(pc.senders) + tracks && pc.closed == old(pc.closed)
  {
    var i := 0;
    while i < |tracks|
      invariant 0 <= i <= |tracks|
      invariant pc.senders == old(pc.senders) + tracks[..i] && pc.closed == old(pc.closed)
    {
      assert tracks[..i + 1] == tracks[..i] + [tracks[i]];
      pc.senders := pc.senders + [tracks[i]];
      i := i + 1;
    }
    assert tracks[..i] == tracks;
  }
}
