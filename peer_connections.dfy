/**
 * The peer-connection bookkeeping of the `useWebRTCConnections` hook: one peer connection per
 * remote user id, one audio element per remote user id, the reconciliation loop that creates a
 * connection for every other participant, and the unmount cleanup. Connections are opaque
 * objects with a `closed` flag; the ghost set `created` remembers every connection the hook
 * has made, so that "no open connection is lost" can be stated.
 */
module PeerConnections {
  import opened Wrappers
  import opened Media

  /** A participant of the voice channel, as the hook receives it. */
  datatype ChannelUser = ChannelUser(userId: string, username: string, isMuted: bool, isSpeaking: bool)

  /** The users the loop connects to: every participant except the current user. */
  function Targets(users: seq<ChannelUser>, currentUser: Option<string>): (r: set<string>)
    ensures forall u :: u in r <==> Some(u) != currentUser && exists i :: 0 <= i < |users| && users[i].userId == u
  {
    set i | 0 <= i < |users| && Some(users[i].userId) != currentUser :: users[i].userId
  }

  lemma TargetsStep(users: seq<ChannelUser>, i: int, currentUser: Option<string>)
    requires 0 <= i < |users|
    ensures Targets(users[..i + 1], currentUser)
      == Targets(users[..i], currentUser) + (if Some(users[i].userId) != currentUser then {users[i].userId} else {})
  {
    assert users[..i + 1] == users[..i] + [users[i]];
  }

  /** The current user is never a target. */
  lemma CurrentUserNotTarget(users: seq<ChannelUser>, me: string)
    ensures me !in Targets(users, Some(me))
  {
  }

  /** `peers.forEach(pc => pc.close())` */
  method CloseAllPeers(peers: map<string, PeerConnection>)
    modifies peers.Values
    ensures forall p :: p in peers.Values ==> p.closed
    ensures forall p :: p in peers.Values ==> p.senders == old(p.senders)
  {
    var keys := peers.Keys;
    while keys != {}
      invariant keys <= peers.Keys
      invariant forall u :: u in peers && u !in keys ==> peers[u].closed
      invariant forall p :: p in peers.Values ==> p.senders == old(p.senders)
      decreases keys
    {
      var u :| u in keys;
      peers[u].closed := true;
      keys := keys - {u};
    }
  }

  /** `audioElements.forEach(audio => audio.srcObject = null)` */
  method DetachAll(elements: map<string, AudioElement>)
    modifies elements.Values
    ensures forall a :: a in elements.Values ==> a.source.None?
  {
    var keys := elements.Keys;
    while keys != {}
      invariant keys <= elements.Keys
      invariant forall u :: u in elements && u !in keys ==> elements[u].source.None?
      decreases keys
    {
      var u :| u in keys;
      elements[u].source := None;
      keys := keys - {u};
    }
  }

  class WebRTCConnections {
    var peers: map<string, PeerConnection>
    var audioElements: map<string, AudioElement>
    ghost var created: set<PeerConnection>

    /**
     * The open connections are exactly those in the map, one per user id and no two users
     * sharing one; no two users share an audio element.
     */
    ghost predicate Valid()
      reads this, created
    {
      (forall u :: u in peers ==> peers[u] in created && !peers[u].closed)
      && (forall p :: p in created && !p.closed ==> p in peers.Values)
      && (forall u, v :: u in peers && v in peers && u != v ==> peers[u] != peers[v])
      && (forall u, v :: u in audioElements && v in audioElements && u != v ==> audioElements[u] != audioElements[v])
    }

    constructor()
      ensures peers == map[] && audioElements == map[] && created == {} && Valid()
    {
      peers := map[];
      audioElements := map[];
      created := {};
    }

    /**
     * `createPeerConnection(userId)`: the user's existing connection, if any, is closed and
     * removed first; then a new connection is made (`fails`: its constructor throws), every
     * local track is added to it, and it is stored under the user id. Other users' entries are
     * untouched.
     */
    method CreatePeerConnection(userId: string, localStream: Option<MediaStream>, fails: bool)
      returns (pc: Option<PeerConnection>)
      requires Valid()
      modifies this, peers.Values
      ensures Valid()
      ensures userId in old(peers) ==> old(peers)[userId].closed
      ensures pc.None? <==> fails
      ensures pc.None? ==> userId !in peers
      ensures pc.Some? ==> userId in peers && peers[userId] == pc.value && fresh(pc.value)
                           && pc.value.senders == (if localStream.Some? then localStream.value.tracks else [])
      ensures forall u :: u != userId ==> (u in peers <==> u in old(peers)) && (u in peers ==> peers[u] == old(peers)[u])
      ensures forall p :: p in old(peers.Values) ==> p.senders == old(p.senders)
      ensures forall p :: p in old(created) && old(p.closed) ==> p.closed
      ensures old(created) <= created
      ensures audioElements == old(audioElements)
    {
      if userId in peers {
        ClosePeer(userId);
      }
      if fails {
        return None;
      }
      var p := OpenPeer(userId, if localStream.Some? then localStream.value.tracks else []);
      return Some(p);
    }

    /** A new connection carrying `tracks`, stored for `userId`. */
    method OpenPeer(userId: string, tracks: seq<Track>) returns (p: PeerConnection)
      requires Valid() && userId !in peers
      modifies this
      ensures Valid() && fresh(p) && p.senders == tracks
      ensures peers == old(peers)[userId := p] && created == old(created) + {p}
      ensures audioElements == old(audioElements)
    {
      p := new PeerConnection();
      AddTracks(p, tracks);
      StorePeer(userId, p);
    }

    /** `existingPc.close(); peers.delete(userId)` */
    method ClosePeer(userId: string)
      requires Valid() && userId in peers
      modifies this, peers[userId]
      ensures Valid()
      ensures old(peers)[userId].closed && peers == old(peers) - {userId}
      ensures old(peers)[userId].senders == old(peers[userId].senders)
      ensures audioElements == old(audioElements) && created == old(created)
    {
      var pc := peers[userId];
      pc.closed := true;
      peers := peers - {userId};
      forall q | q in created && !q.closed ensures q in peers.Values {
        var u :| u in old(peers) && old(peers)[u] == q;
        assert u != userId;
        assert peers[u] == q;
      }
    }

    /** `peers.set(userId, pc)` for a connection the hook has just made. */
    method StorePeer(userId: string, pc: PeerConnection)
      requires Valid() && userId !in peers && pc !in created && !pc.closed
      modifies this
      ensures Valid()
      ensures peers == old(peers)[userId := pc] && created == old(created) + {pc}
      ensures audioElements == old(audioElements)
    {
      peers := peers[userId := pc];
      created := created + {pc};
      forall q | q in created && !q.closed ensures q in peers.Values {
        if q == pc {
          assert peers[userId] == pc;
        } else {
          var u :| u in old(peers) && old(peers)[u] == q;
          assert peers[u] == q;
        }
      }
    }

    /**
     * Where the reconciliation loop stands: every user in `done` has a connection unless theirs
     * failed, one made during the loop (not in `made`) that carries `tracks`; every other user
     * keeps their entry of `before`; and the connections `before` held for users in `done` are
     * closed.
     */
    ghost predicate Reconciled(
      done: set<string>, before: map<string, PeerConnection>, made: set<PeerConnection>,
      failing: set<string>, tracks: seq<Track>)
      reads this, peers.Values, before.Values
    {
      (forall u :: u in done ==>
         (u in peers <==> u !in failing)
         && (u in peers ==> peers[u] !in made && peers[u].senders == tracks))
      && (forall u :: u !in done ==>
            (u in peers <==> u in before) && (u in peers ==> peers[u] == before[u]))
      && (forall u :: u in done && u in before ==> before[u].closed)
    }

    /** One step of the loop: `createPeerConnection(userId)` inside its `try`/`catch`. */
    method Reconnect(
      userId: string, localStream: MediaStream, failing: set<string>, ghost done: set<string>,
      ghost before: map<string, PeerConnection>, ghost made: set<PeerConnection>)
      requires Valid() && made <= created && before.Values <= created
      requires Reconciled(done, before, made, failing, localStream.tracks)
      modifies this, peers.Values
      ensures Valid() && made <= created
      ensures Reconciled(done + {userId}, before, made, failing, localStream.tracks)
      ensures forall u :: u in done && u != userId && u in peers ==> peers[u] == old(peers[u])
      ensures userId in peers ==> fresh(peers[userId])
      ensures audioElements == old(audioElements)
    {
      if userId !in done && userId in before {
        assert peers[userId] == before[userId];
      }
      var _ := CreatePeerConnection(userId, Some(localStream), userId in failing);
    }

    /**
     * The reconciliation effect: nothing without a channel or a local stream; otherwise a
     * connection is (re)created for every participant but the current user, in order. A user
     * in `failing` is one whose connection throws; the error is caught and the loop goes on.
     */
    method ProcessConnections(
      channelId: Option<string>, localStream: Option<MediaStream>, users: seq<ChannelUser>,
      currentUser: Option<string>, failing: set<string>)
      requires Valid()
      modifies this, peers.Values
      ensures Valid()
      ensures !Truthy(channelId) || localStream.None? ==> peers == old(peers)
      ensures Truthy(channelId) && localStream.Some? ==>
        forall u :: u in Targets(users, currentUser) ==>
          (u in peers <==> u !in failing)
          && (u in peers ==> fresh(peers[u]) && peers[u].senders == localStream.value.tracks)
      ensures forall u :: u !in Targets(users, currentUser) ==>
        (u in peers <==> u in old(peers)) && (u in peers ==> peers[u] == old(peers)[u])
      ensures Truthy(channelId) && localStream.Some? ==>
        forall u :: u in Targets(users, currentUser) && u in old(peers) ==> old(peers)[u].closed
      ensures audioElements == old(audioElements)
    {
      if !Truthy(channelId) || localStream.None? {
        return;
      }
      var i := 0;
      ghost var done: set<string> := {};
      ghost var before := peers;
      ghost var made := created;
      while i < |users|
        invariant 0 <= i <= |users|
        invariant done == Targets(users[..i], currentUser)
        invariant Valid() && made <= created && before.Values <= created
        invariant Reconciled(done, before, made, failing, localStream.value.tracks)
        invariant forall u :: u in done && u in peers ==> fresh(peers[u])
        invariant audioElements == old(audioElements)
      {
        var u := users[i].userId;
        TargetsStep(users, i, currentUser);
        if Some(u) != currentUser {
          Reconnect(u, localStream.value, failing, done, before, made);
          done := done + {u};
        }
        i := i + 1;
      }
      assert users[..i] == users;
    }

    /**
     * The `ontrack` handler of `userId`'s connection: the user's audio element is reused, or
     * created (autoplay, volume 1) when there is none, and plays the remote stream.
     */
    method OnTrack(userId: string, remote: MediaStream) returns (element: AudioElement)
      requires Valid()
      modifies this, audioElements.Values
      ensures Valid()
      ensures audioElements.Keys == old(audioElements.Keys) + {userId}
      ensures audioElements[userId] == element && element.source == Some(remote)
      ensures userId in old(audioElements) ==> element == old(audioElements[userId])
      ensures userId !in old(audioElements) ==> fresh(element) && element.autoplay && element.volume == 1.0
      ensures forall u :: u in old(audioElements) && u != userId ==>
        audioElements[u] == old(audioElements[u]) && audioElements[u].source == old(audioElements[u].source)
      ensures peers == old(peers) && created == old(created)
    {
      if userId in audioElements {
        element := audioElements[userId];
      } else {
        element := new AudioElement();
        element.autoplay := true;
        element.volume := 1.0;
        audioElements := audioElements[userId := element];
      }
      element.source := Some(remote);
    }

    /**
     * The unmount cleanup: every connection is closed, every audio element loses its source,
     * and both maps are emptied; no connection the hook made is left open.
     */
    method Cleanup()
      requires Valid()
      modifies this, peers.Values, audioElements.Values
      ensures Valid()
      ensures peers == map[] && audioElements == map[]
      ensures forall p :: p in old(peers.Values) ==> p.closed
      ensures forall a :: a in old(audioElements.Values) ==> a.source.None?
      ensures forall p :: p in created ==> p.closed
    {
      CloseAllPeers(peers);
      peers := map[];
      DetachAll(audioElements);
      audioElements := map[];
    }
  }
}
