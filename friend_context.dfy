/** The friend list state (contexts/FriendContext.tsx): search results, friends,
    pending requests and the loading flag. REST calls are given as their outcomes. */
module FriendContext {
  import opened Wrappers
  import opened Text

  /** A search hit; only `id` is read by the context. */
  datatype SearchUser = SearchUser(id: int, username: string)
  datatype Friend = Friend(id: int, username: string)
  datatype FriendRequest = FriendRequest(id: int, senderId: int)

  /** `results.filter(user => user.id !== userId)`. */
  function WithoutUser(results: seq<SearchUser>, userId: int): (r: seq<SearchUser>)
    ensures |r| <= |results|
    ensures forall u :: u in r <==> u in results && u.id != userId
  {
    if results == [] then []
    else (if results[0].id != userId then [results[0]] else []) + WithoutUser(results[1..], userId)
  }

  /** The filter keeps the order of what it keeps: it distributes over concatenation. */
  lemma {:induction false} WithoutUserConcat(a: seq<SearchUser>, b: seq<SearchUser>, userId: int)
    ensures WithoutUser(a + b, userId) == WithoutUser(a, userId) + WithoutUser(b, userId)
  {
    if a == [] {
      assert a + b == b;
    } else {
      assert (a + b)[0] == a[0] && (a + b)[1..] == a[1..] + b;
      WithoutUserConcat(a[1..], b, userId);
    }
  }

  /** Exactly the entries with the id go; every other entry stays as often as it was there. */
  lemma {:induction false} WithoutUserCount(results: seq<SearchUser>, userId: int, u: SearchUser)
    ensures multiset(WithoutUser(results, userId))[u] == if u.id == userId then 0 else multiset(results)[u]
  {
    if results != [] {
      assert results == [results[0]] + results[1..];
      WithoutUserCount(results[1..], userId, u);
    }
  }

  /** A list without that id is left as it was. */
  lemma {:induction false} WithoutAbsentUser(results: seq<SearchUser>, userId: int)
    requires forall i :: 0 <= i < |results| ==> results[i].id != userId
    ensures WithoutUser(results, userId) == results
  {
    if results != [] {
      WithoutAbsentUser(results[1..], userId);
    }
  }

  class FriendState {
    var friends: seq<Friend>
    var pendingRequests: seq<FriendRequest>
    var searchResults: seq<SearchUser>
    var isLoading: bool

    constructor()
      ensures friends == [] && pendingRequests == [] && searchResults == [] && !isLoading
    {
      friends := [];
      pendingRequests := [];
      searchResults := [];
      isLoading := false;
    }

    /** `searchUsers`: a blank query empties the results without a request. */
    method SearchUsers(query: string, reply: Outcome<seq<SearchUser>>) returns (requested: bool)
      modifies this`searchResults, this`isLoading
      ensures requested <==> !IsBlank(query)
      ensures !requested ==> searchResults == [] && isLoading == old(isLoading)
      ensures requested ==> !isLoading
      ensures requested ==> searchResults == if reply.Ok? then reply.value else old(searchResults)
    {
      if IsBlank(query) {
        searchResults := [];
        return false;
      }
      requested := true;
      isLoading := true;
      if reply.Ok? {
        searchResults := reply.value;
      }
      isLoading := false;
    }

    /** `sendFriendRequest`: on success the user leaves the search results. */
    method SendFriendRequest(userId: int, reply: Outcome<()>)
      modifies this`searchResults, this`isLoading
      ensures searchResults == if reply.Ok? then WithoutUser(old(searchResults), userId) else old(searchResults)
      ensures !isLoading
    {
      isLoading := true;
      if reply.Ok? {
        searchResults := WithoutUser(searchResults, userId);
      }
      isLoading := false;
    }

    /** `loadFriends`. */
    method LoadFriends(reply: Outcome<seq<Friend>>)
      modifies this`friends, this`isLoading
      ensures friends == if reply.Ok? then reply.value else old(friends)
      ensures !isLoading
    {
      isLoading := true;
      if reply.Ok? {
        friends := reply.value;
      }
      isLoading := false;
    }

    /** `loadPendingRequests`: failures are logged; the loading flag is not touched. */
    method LoadPendingRequests(reply: Outcome<seq<FriendRequest>>)
      modifies this`pendingRequests
      ensures pendingRequests == if reply.Ok? then reply.value else old(pendingRequests)
    {
      if reply.Ok? {
        pendingRequests := reply.value;
      }
    }

    /** `acceptFriendRequest`: on success both lists are reloaded. The two reloads run
        together and touch different fields, so their order does not matter. */
    method AcceptFriendRequest(requestId: int, reply: Outcome<()>,
                               pendingReply: Outcome<seq<FriendRequest>>, friendsReply: Outcome<seq<Friend>>)
      modifies this`pendingRequests, this`friends, this`isLoading
      ensures pendingRequests == if reply.Ok? && pendingReply.Ok? then pendingReply.value else old(pendingRequests)
      ensures friends == if reply.Ok? && friendsReply.Ok? then friendsReply.value else old(friends)
      ensures !isLoading
    {
      isLoading := true;
      if reply.Ok? {
        LoadPendingRequests(pendingReply);
        LoadFriends(friendsReply);
      }
      isLoading := false;
    }

    /** `rejectFriendRequest`: on success only the pending requests are reloaded. */
    method RejectFriendRequest(requestId: int, reply: Outcome<()>, pendingReply: Outcome<seq<FriendRequest>>)
      modifies this`pendingRequests, this`isLoading
      ensures pendingRequests == if reply.Ok? && pendingReply.Ok? then pendingReply.value else old(pendingRequests)
      ensures !isLoading
    {
      isLoading := true;
      if reply.Ok? {
        LoadPendingRequests(pendingReply);
      }
      isLoading := false;
    }

    method ClearSearchResults()
      modifies this`searchResults
      ensures searchResults == []
    {
      searchResults := [];
    }
  }
}
