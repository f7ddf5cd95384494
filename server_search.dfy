/**
 * `ServerSearch`: the search box over the server directory and the result list, which a
 * successful join updates in place of a new search. The entries have the shape of the edge
 * function's search hits; whether a search succeeds is a parameter.
 */
module ServerSearch {
  import opened Wrappers
  import opened Seqs
  import opened Text
  import opened EdgeRows

  /** The component's state: the query field, the shown results, and the two busy flags. */
  datatype SearchView = SearchView(query: string, results: seq<SearchHit>, loading: bool, joining: Option<Id>)

  /** The search button is disabled while a search runs or when the query is blank. */
  predicate SearchDisabled(v: SearchView) {
    v.loading || IsBlank(v.query)
  }

  /**
   * `handleSearch` up to the API call: a blank query empties the list and calls no API
   * wrapper; any other query is passed to the wrapper as typed (untrimmed) and the view is loading.
   */
  function StartSearch(v: SearchView): (r: (SearchView, Option<string>))
    ensures r.1.None? <==> IsBlank(v.query)
    ensures r.1.None? ==> r.0 == v.(results := [])
    ensures r.1.Some? ==> r.1.value == v.query && r.0 == v.(loading := true)
  {
    if IsBlank(v.query) then (v.(results := []), None) else (v.(loading := true), Some(v.query))
  }

  /** The search's answer: the new results, or (None) a failed call that keeps the old ones. */
  function SearchAnswered(v: SearchView, answer: Option<seq<SearchHit>>): (r: SearchView)
    ensures !r.loading && r.query == v.query && r.joining == v.joining
    ensures r.results == (if answer.Some? then answer.value else v.results)
  {
    v.(loading := false, results := answer.GetOr(v.results))
  }

  /** The entry of a server the user has just joined: a member now, with one member more. */
  function Joined(hit: SearchHit): SearchHit {
    hit.(isMember := true, memberCount := hit.memberCount + 1)
  }

  /**
   * The `map` over the previous results after joining `serverId`: the entries with that id are
   * marked joined, every other entry is kept, in the same order.
   */
  function MarkJoined(results: seq<SearchHit>, serverId: Id): (r: seq<SearchHit>)
    ensures |r| == |results|
    ensures forall i :: 0 <= i < |r| ==> r[i].id == results[i].id
    ensures forall i :: 0 <= i < |r| && results[i].id == serverId ==>
      r[i].isMember && r[i].memberCount == results[i].memberCount + 1
      && r[i].(isMember := results[i].isMember, memberCount := results[i].memberCount) == results[i]
    ensures forall i :: 0 <= i < |r| && results[i].id != serverId ==> r[i] == results[i]
  {
    if results == [] then []
    else
      [if results[0].id == serverId then Joined(results[0]) else results[0]]
        + MarkJoined(results[1..], serverId)
  }

  /** Marking a server that is not listed changes nothing. */
  lemma MarkUnlisted(results: seq<SearchHit>, serverId: Id)
    requires forall i :: 0 <= i < |results| ==> results[i].id != serverId
    ensures MarkJoined(results, serverId) == results
  {
  }

  /** The member counts shown, added up. */
  function TotalMembers(results: seq<SearchHit>): nat {
    if results == [] then 0 else results[0].memberCount + TotalMembers(results[1..])
  }

  /** Joining adds one shown member per entry of the joined server, and none elsewhere. */
  lemma {:induction false} MarkJoinedAddsOnePerEntry(results: seq<SearchHit>, serverId: Id)
    ensures TotalMembers(MarkJoined(results, serverId))
      == TotalMembers(results) + Count(results, (h: SearchHit) => h.id == serverId)
  {
    if results != [] {
      MarkJoinedAddsOnePerEntry(results[1..], serverId);
      var r := MarkJoined(results, serverId);
      assert r[1..] == MarkJoined(results[1..], serverId);
    }
  }

  /**
   * `handleJoinServer(serverId)` once the API call has succeeded or failed: a success marks the server
   * joined and tells the parent (the boolean); a failure keeps the list. Either way nothing is
   * being joined afterwards.
   */
  function JoinAnswered(v: SearchView, serverId: Id, succeeded: bool): (r: (SearchView, bool))
    ensures r.0.joining.None? && (r.1 <==> succeeded)
    ensures succeeded ==> r.0.results == MarkJoined(v.results, serverId)
    ensures !succeeded ==> r.0.results == v.results
    ensures r.0.query == v.query && r.0.loading == v.loading
  {
    if succeeded then (v.(results := MarkJoined(v.results, serverId), joining := None), true)
    else (v.(joining := None), false)
  }
}
