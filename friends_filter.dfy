/**
 * The friends list of `DirectMessagesArea`: which friends the search box and the all/online
 * switch let through, and the colour class of a status dot.
 */
module FriendsFilter {
  import opened Wrappers
  import opened Seqs
  import opened Text

  datatype Friend = Friend(
    id: string, username: string, displayName: Option<string>, accountNumber: int, status: string)

  datatype StatusFilter = All | Online

  /**
   * The search half of the filter: the query, lower-cased, inside the lower-cased username or
   * display name (an absent display name never matches), or the query as typed inside the
   * account number's decimal text.
   */
  predicate MatchesSearch(f: Friend, query: string) {
    || Includes(ToLower(f.username), ToLower(query))
    || (f.displayName.Some? && Includes(ToLower(f.displayName.value), ToLower(query)))
    || Includes(IntToString(f.accountNumber), query)
  }

  /** The switch half: "all" lets every status through, "online" only "online". */
  predicate MatchesFilter(f: Friend, filter: StatusFilter) {
    filter == All || f.status == "online"
  }

  /** `filteredFriends` */
  function FilteredFriends(friends: seq<Friend>, query: string, filter: StatusFilter): (r: seq<Friend>)
    ensures forall f :: f in r <==> f in friends && MatchesSearch(f, query) && MatchesFilter(f, filter)
  {
    Filter(friends, (f: Friend) => MatchesSearch(f, query) && MatchesFilter(f, filter))
  }

  /** The list keeps the friends' order: filtering a concatenation filters each part in place. */
  lemma FilteredKeepsOrder(a: seq<Friend>, b: seq<Friend>, query: string, filter: StatusFilter)
    ensures FilteredFriends(a + b, query, filter) == FilteredFriends(a, query, filter) + FilteredFriends(b, query, filter)
  {
    FilterAppend(a, b, (f: Friend) => MatchesSearch(f, query) && MatchesFilter(f, filter));
  }

  /** The empty query matches every friend. */
  lemma EmptyQueryMatches(f: Friend)
    ensures MatchesSearch(f, "")
  {
    IncludesTrivial(IntToString(f.accountNumber));
  }

  /** With an empty query and the "all" filter, the whole list is shown, in order. */
  lemma {:induction false} EmptyQueryShowsAll(friends: seq<Friend>)
    ensures FilteredFriends(friends, "", All) == friends
  {
    if friends != [] {
      EmptyQueryMatches(friends[0]);
      EmptyQueryShowsAll(friends[1..]);
      FilteredKeepsOrder([friends[0]], friends[1..], "", All);
      assert [friends[0]] + friends[1..] == friends;
    }
  }

  /** The name part of the search ignores the case of the query. */
  lemma NameSearchIgnoresCase(f: Friend, query: string)
    ensures Includes(ToLower(f.username), ToLower(ToUpper(query))) == Includes(ToLower(f.username), ToLower(query))
    ensures f.displayName.Some? ==>
      Includes(ToLower(f.displayName.value), ToLower(ToUpper(query)))
        == Includes(ToLower(f.displayName.value), ToLower(query))
  {
    LowerOfUpper(query);
  }

  /** `getStatusColor`: online, away and busy have their own class; anything else is offline. */
  function StatusColor(status: string): (r: string)
    ensures status == "online" <==> r == "bg-discord-online"
    ensures status == "away" <==> r == "bg-discord-away"
    ensures status == "busy" <==> r == "bg-discord-busy"
    ensures status !in {"online", "away", "busy"} <==> r == "bg-discord-offline"
  {
    match status
    case "online" => "bg-discord-online"
    case "away" => "bg-discord-away"
    case "busy" => "bg-discord-busy"
    case _ => "bg-discord-offline"
  }
}
