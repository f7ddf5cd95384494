/**
 * Top-level routing of the `discord-api` edge function: CORS preflight, authentication, then a
 * switch on the last non-empty segment of the URL path.
 */
module EdgeRouting {
  import opened Wrappers
  import opened Seqs
  import opened Text
  import opened EdgeRows

  predicate NonEmpty(s: string) {
    s != []
  }

  /** `pathname.split('/').filter(segment => segment !== '')` */
  function Segments(path: string): (r: seq<string>)
    ensures forall i :: 0 <= i < |r| ==> r[i] != [] && '/' !in r[i]
  {
    var pieces := Split(path, '/');
    var r := Filter(pieces, NonEmpty);
    assert forall i :: 0 <= i < |r| ==> '/' !in r[i] by {
      forall i | 0 <= i < |r| ensures '/' !in r[i] {
        var k :| 0 <= k < |pieces| && pieces[k] == r[i];
      }
    }
    r
  }

  /** `pathSegments[pathSegments.length - 1]`, None (undefined) when the path has no segment. */
  function LastSegment(path: string): (r: Option<string>)
    ensures r.None? <==> Segments(path) == []
    ensures r.Some? ==> r.value != [] && '/' !in r.value
  {
    var segs := Segments(path);
    if segs == [] then None else Some(segs[|segs| - 1])
  }

  /** Appending "/segment" to a path makes that segment the last one. */
  lemma LastSegmentOfAppend(path: string, segment: string)
    requires segment != [] && '/' !in segment
    ensures LastSegment(path + "/" + segment) == Some(segment)
  {
    assert path + "/" + segment == path + ['/'] + segment;
    SplitAppend(path, segment, '/');
    SplitWithoutSeparator(segment, '/');
    FilterAppend(Split(path, '/'), [segment], NonEmpty);
    assert Filter([segment], NonEmpty) == [segment] by {
      assert [segment][1..] == [];
    }
  }

  /** A trailing slash does not change the action: empty segments are dropped. */
  lemma LastSegmentTrailingSlash(path: string)
    ensures LastSegment(path + "/") == LastSegment(path)
  {
    var empty: string := [];
    var last: seq<string> := [empty];
    assert path + "/" == path + ['/'] + empty;
    SplitAppend(path, empty, '/');
    SplitWithoutSeparator(empty, '/');
    FilterAppend(Split(path, '/'), last, NonEmpty);
    assert Filter(last, NonEmpty) == [] by {
      assert last[1..] == [];
    }
    assert Segments(path + "/") == Segments(path);
  }

  /** The eight actions the switch knows. */
  datatype Action =
    | Servers | Channels | Messages | JoinServer | JoinByInvite | CreateInvite | Invites | SearchServers

  /** The path segment that selects an action. */
  function Name(a: Action): string {
    match a
    case Servers => "servers"
    case Channels => "channels"
    case Messages => "messages"
    case JoinServer => "join-server"
    case JoinByInvite => "join-by-invite"
    case CreateInvite => "create-invite"
    case Invites => "invites"
    case SearchServers => "search-servers"
  }

  /** The `switch (action)`: the action whose name the segment is, None for the default branch. */
  function ActionOf(segment: Option<string>): (r: Option<Action>)
    ensures r.Some? ==> segment == Some(Name(r.value))
  {
    if segment.None? then None
    else
      match segment.value
      case "servers" => Some(Servers)
      case "channels" => Some(Channels)
      case "messages" => Some(Messages)
      case "join-server" => Some(JoinServer)
      case "join-by-invite" => Some(JoinByInvite)
      case "create-invite" => Some(CreateInvite)
      case "invites" => Some(Invites)
      case "search-servers" => Some(SearchServers)
      case _ => None
  }

  /** Every action is reached by its own name, so no two actions share a name. */
  lemma ActionOfName(a: Action)
    ensures ActionOf(Some(Name(a))) == Some(a)
  {
  }

  /** What the function does with a request before any handler runs. */
  datatype Route = Preflight | Unauthorized | InvalidAction | Dispatch(action: Action, userId: Id)

  /**
   * OPTIONS is answered before authentication; an unauthenticated request (no user) gets 401;
   * otherwise the last path segment picks the handler, or 400 "Invalid action".
   */
  function RouteOf(m: HttpMethod, path: string, user: Option<Id>): (r: Route)
    ensures r.Preflight? <==> m == Options
    ensures r.Unauthorized? <==> m != Options && user.None?
    ensures r.Dispatch? ==> user == Some(r.userId) && LastSegment(path) == Some(Name(r.action))
  {
    if m == Options then Preflight
    else if user.None? then Unauthorized
    else
      match ActionOf(LastSegment(path))
      case Some(a) => Dispatch(a, user.value)
      case None => InvalidAction
  }

  /** An authenticated non-OPTIONS request is rejected as invalid iff its last segment is none of the eight names. */
  lemma InvalidActionIff(m: HttpMethod, path: string, user: Id)
    requires m != Options
    ensures RouteOf(m, path, Some(user)) == InvalidAction <==> forall a: Action :: LastSegment(path) != Some(Name(a))
  {
    if RouteOf(m, path, Some(user)) != InvalidAction {
      var a := RouteOf(m, path, Some(user)).action;
      assert LastSegment(path) == Some(Name(a));
    } else {
      forall a: Action ensures LastSegment(path) != Some(Name(a)) {
        ActionOfName(a);
      }
    }
  }

  /** A request for ".../<name>" reaches the handler of that name, whatever comes before it. */
  lemma RouteOfNamedPath(m: HttpMethod, prefix: string, a: Action, user: Id)
    requires m != Options
    ensures RouteOf(m, prefix + "/" + Name(a), Some(user)) == Dispatch(a, user)
  {
    LastSegmentOfAppend(prefix, Name(a));
    ActionOfName(a);
  }

  /**
   * The PATCH branch of the invites handler reads the invite id from the same last segment
   * the switch matched, so the id it uses is always the word "invites".
   */
  lemma PatchInviteIdIsInvites(path: string, user: Id)
    requires RouteOf(Patch, path, Some(user)) == Dispatch(Invites, user)
    ensures LastSegment(path) == Some("invites")
  {
  }
}
