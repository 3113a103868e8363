/** The chat state container (contexts/ChatContext.tsx): the public feed, the
    per-friend private threads, the loading flag and the push client's
    channel subscriptions. REST and push calls are given as their outcomes. */
module ChatContext {
  import opened Wrappers
  import opened Text
  import opened Types

  /** The channel every signed-in client subscribes to for the public feed. */
  const PublicChannel: string := "chat-channel"

  function Min(a: int, b: int): int { if a <= b then a else b }
  function Max(a: int, b: int): int { if a <= b then b else a }

  /** The push channel two users share for private chat: the smaller id first. */
  function PrivateChannelName(userId: int, friendId: int): (r: string)
    ensures StartsWith(r, "private-chat-")
  {
    "private-chat-" + IntToString(Min(userId, friendId)) + "-" + IntToString(Max(userId, friendId))
  }

  /** Both participants compute the same channel name. */
  lemma ChannelNameSymmetric(a: int, b: int)
    ensures PrivateChannelName(a, b) == PrivateChannelName(b, a)
  {
  }

  lemma NoDashInDigits(s: string)
    requires AllDigits(s)
    ensures '-' !in s
  {
  }

  /** The part after "private-chat-" determines the ordered pair. */
  lemma PairFromSuffix(lo: nat, hi: nat, lo': nat, hi': nat)
    requires NatToString(lo) + "-" + NatToString(hi) == NatToString(lo') + "-" + NatToString(hi')
    ensures lo == lo' && hi == hi'
  {
    NoDashInDigits(NatToString(lo));
    NoDashInDigits(NatToString(lo'));
    SplitAtSeparator(NatToString(lo), NatToString(hi), NatToString(lo'), NatToString(hi'), '-');
    NatToStringInjective(lo, lo');
    NatToStringInjective(hi, hi');
  }

  lemma ChannelNameOfNats(a: nat, b: nat)
    ensures PrivateChannelName(a, b) == "private-chat-" + (NatToString(Min(a, b)) + "-" + NatToString(Max(a, b)))
  {
  }

  /** For non-negative ids, two pairs share a channel exactly when they are the same unordered pair. */
  lemma ChannelNameInjective(a: nat, b: nat, c: nat, d: nat)
    ensures PrivateChannelName(a, b) == PrivateChannelName(c, d) <==> (a == c && b == d) || (a == d && b == c)
  {
    if PrivateChannelName(a, b) == PrivateChannelName(c, d) {
      var p := "private-chat-";
      var x := NatToString(Min(a, b)) + "-" + NatToString(Max(a, b));
      var x' := NatToString(Min(c, d)) + "-" + NatToString(Max(c, d));
      ChannelNameOfNats(a, b);
      ChannelNameOfNats(c, d);
      assert x == (p + x)[|p|..] && x' == (p + x')[|p|..];
      PairFromSuffix(Min(a, b), Max(a, b), Min(c, d), Max(c, d));
    }
  }

  /** No private channel can be confused with the public one. */
  lemma PrivateChannelIsNotPublic(a: int, b: int)
    ensures PrivateChannelName(a, b) != PublicChannel
  {
    assert PrivateChannelName(a, b)[0] == 'p';
  }

  predicate NoDuplicates(s: seq<string>) {
    forall i, j :: 0 <= i < j < |s| ==> s[i] != s[j]
  }

  /** `pusher.channel(name)` then, when absent, `pusher.subscribe(name)` and `bind`:
      the channel list of the push client after asking for `name`. */
  function Subscribe(channels: seq<string>, name: string): (r: seq<string>)
    ensures forall c :: c in r <==> c in channels || c == name
    ensures |channels| <= |r| <= |channels| + 1 && r[..|channels|] == channels
    ensures NoDuplicates(channels) ==> NoDuplicates(r)
  {
    if name in channels then channels else channels + [name]
  }

  lemma SubscribeIdempotent(channels: seq<string>, name: string)
    ensures Subscribe(Subscribe(channels, name), name) == Subscribe(channels, name)
  {
  }

  lemma {:induction false} NoDuplicatesCount(s: seq<string>, c: string)
    requires NoDuplicates(s)
    ensures multiset(s)[c] == if c in s then 1 else 0
  {
    if s != [] {
      assert s == [s[0]] + s[1..];
      assert NoDuplicates(s[1..]);
      NoDuplicatesCount(s[1..], c);
      assert s[0] !in s[1..];
    }
  }

  /** However often a channel is asked for, it is subscribed (and bound) once. */
  lemma SubscribedOnce(channels: seq<string>, name: string)
    requires NoDuplicates(channels)
    ensures multiset(Subscribe(channels, name))[name] == 1
  {
    NoDuplicatesCount(Subscribe(channels, name), name);
  }

  /** `privateMessages[friendId] || []`. */
  function ThreadOf(threads: map<int, seq<Message>>, friendId: int): (r: seq<Message>)
    ensures friendId in threads ==> r == threads[friendId]
    ensures friendId !in threads ==> r == []
  {
    if friendId in threads then threads[friendId] else []
  }

  /** `{...prev, [id]: [...(prev[id] || []), m]}`: one message added at the end of one thread. */
  function AppendToThread(threads: map<int, seq<Message>>, id: int, m: Message): (r: map<int, seq<Message>>)
    ensures r.Keys == threads.Keys + {id}
    ensures |r[id]| == |ThreadOf(threads, id)| + 1
    ensures r[id][..|ThreadOf(threads, id)|] == ThreadOf(threads, id) && r[id][|ThreadOf(threads, id)|] == m
    ensures forall k :: k in threads && k != id ==> r[k] == threads[k]
  {
    threads[id := ThreadOf(threads, id) + [m]]
  }

  /** The other participant of a private message, seen from user `me`. */
  function Counterparty(me: int, m: Message): (r: Option<int>)
    ensures r.Some? ==> r.value == m.senderId || m.receiverId == r
    ensures m.senderId != me ==> r == Some(m.senderId)
    ensures m.senderId == me ==> r == m.receiverId
  {
    if m.senderId == me then m.receiverId else Some(m.senderId)
  }

  /** The public-channel handler: a message not marked private is appended, with no check of its id. */
  function RoutePublic(feed: seq<Message>, m: Message): (r: seq<Message>)
    ensures |r| == |feed| + 1 <==> !m.isPrivate
    ensures !m.isPrivate ==> r[..|feed|] == feed && r[|feed|] == m
    ensures m.isPrivate ==> r == feed
  {
    if !m.isPrivate then feed + [m] else feed
  }

  /** The private-channel handler: a private message goes to the end of its counterparty's thread;
      nothing changes when it is not private or the counterparty id is missing or 0. */
  function RoutePrivate(threads: map<int, seq<Message>>, me: int, m: Message): (r: map<int, seq<Message>>)
    ensures !m.isPrivate || !IsTruthyId(Counterparty(me, m)) ==> r == threads
    ensures m.isPrivate && IsTruthyId(Counterparty(me, m)) ==>
      var k := Counterparty(me, m).value;
      && r.Keys == threads.Keys + {k}
      && |r[k]| == |ThreadOf(threads, k)| + 1
      && r[k][..|ThreadOf(threads, k)|] == ThreadOf(threads, k) && r[k][|ThreadOf(threads, k)|] == m
      && forall j :: j in threads && j != k ==> r[j] == threads[j]
  {
    var other := Counterparty(me, m);
    if m.isPrivate && IsTruthyId(other) then AppendToThread(threads, other.value, m) else threads
  }

  /** Every cached private message is private and filed under its counterparty. */
  ghost predicate FiledByCounterparty(threads: map<int, seq<Message>>, me: int) {
    forall k, i :: k in threads && 0 <= i < |threads[k]| ==>
      threads[k][i].isPrivate && Counterparty(me, threads[k][i]) == Some(k)
  }

  /** Routing a push event keeps every thread holding only messages of that conversation. */
  lemma RoutePrivateKeepsFiling(threads: map<int, seq<Message>>, me: int, m: Message)
    requires FiledByCounterparty(threads, me)
    ensures FiledByCounterparty(RoutePrivate(threads, me, m), me)
  {
    var r: map<int, seq<Message>> := RoutePrivate(threads, me, m);
    forall k: int, i: int | k in r && 0 <= i < |r[k]|
      ensures r[k][i].isPrivate && Counterparty(me, r[k][i]) == Some(k)
    {
      if m.isPrivate && IsTruthyId(Counterparty(me, m)) && k == Counterparty(me, m).value {
        if i < |ThreadOf(threads, k)| {
          assert r[k][i] == r[k][..|ThreadOf(threads, k)|][i];
        }
      }
    }
  }

  /** The sender's own copy, filed by a private send under `receiverId`, keeps the filing too. */
  lemma OwnSendKeepsFiling(threads: map<int, seq<Message>>, me: int, receiverId: int, m: Message)
    requires FiledByCounterparty(threads, me)
    requires m.isPrivate && m.senderId == me && m.receiverId == Some(receiverId)
    ensures FiledByCounterparty(AppendToThread(threads, receiverId, m), me)
  {
    var r: map<int, seq<Message>> := AppendToThread(threads, receiverId, m);
    forall k: int, i: int | k in r && 0 <= i < |r[k]|
      ensures r[k][i].isPrivate && Counterparty(me, r[k][i]) == Some(k)
    {
      if k == receiverId && i < |ThreadOf(threads, k)| {
        assert r[k][i] == r[k][..|ThreadOf(threads, k)|][i];
      }
    }
  }

  /** The public-channel handler never puts a private message in the feed. */
  lemma RoutePublicKeepsFeedPublic(feed: seq<Message>, m: Message)
    requires forall i :: 0 <= i < |feed| ==> !feed[i].isPrivate
    ensures var r := RoutePublic(feed, m); forall i :: 0 <= i < |r| ==> !r[i].isPrivate
  {
  }

  /** No dedup by id: a sender's own private message is cached by the send and again by its push echo. */
  lemma OwnPrivateMessageStoredTwice(threads: map<int, seq<Message>>, me: int, receiverId: int, m: Message)
    requires m.isPrivate && m.senderId == me && m.receiverId == Some(receiverId) && receiverId != 0
    ensures var afterEcho := RoutePrivate(AppendToThread(threads, receiverId, m), me, m);
      ThreadOf(afterEcho, receiverId) == ThreadOf(threads, receiverId) + [m, m]
      && multiset(ThreadOf(afterEcho, receiverId))[m] == multiset(ThreadOf(threads, receiverId))[m] + 2
  {
    var t := ThreadOf(threads, receiverId);
    assert ThreadOf(AppendToThread(threads, receiverId, m), receiverId) == t + [m];
    assert (t + [m]) + [m] == t + [m, m];
  }

  /** No dedup by id on the public feed either: a repeated event is appended again. */
  lemma PublicEchoAppendedTwice(feed: seq<Message>, m: Message)
    requires !m.isPrivate
    ensures RoutePublic(RoutePublic(feed, m), m) == feed + [m, m]
  {
  }

  /** The body of `POST /messages`. */
  datatype PostMessage = PostMessage(username: string, message: string, receiverId: Option<int>)

  /** The arguments of the multipart file upload. */
  datatype FileMessageRequest = FileMessageRequest(
    username: string, file: FileData, message: Option<string>, receiverId: Option<int>)

  class ChatState {
    /** The signed-in user the provider was rendered with. */
    const user: Option<User>
    /** A push client exists (`pusherInstance` is set). */
    var connected: bool
    /** The push client's subscribed channels, in order; each was bound once on subscribing. */
    var channels: seq<string>
    var messages: seq<Message>
    var privateMessages: map<int, seq<Message>>
    var isLoading: bool

    ghost predicate Valid()
      reads this
    {
      NoDuplicates(channels) && (!connected ==> channels == [])
    }

    constructor(user: Option<User>)
      ensures Valid()
      ensures this.user == user && !connected && channels == []
      ensures messages == [] && privateMessages == map[] && !isLoading
    {
      this.user := user;
      connected := false;
      channels := [];
      messages := [];
      privateMessages := map[];
      isLoading := false;
    }

    /** `setupPusher`: a fresh push client, subscribed to the public channel when there is a user. */
    method SetupPusher()
      requires Valid()
      modifies this`connected, this`channels
      ensures Valid() && connected
      ensures channels == if user.Some? then [PublicChannel] else []
    {
      connected := true;
      channels := [];
      if user.Some? {
        channels := Subscribe(channels, PublicChannel);
      }
    }

    /** The channel list `subscribeToPrivateChannel(friendId)` leaves behind. */
    function ChannelsAfterSubscribe(friendId: int): (r: seq<string>)
      reads this
      ensures |channels| <= |r| && r[..|channels|] == channels
      ensures NoDuplicates(channels) ==> NoDuplicates(r)
      ensures user.Some? && connected ==> PrivateChannelName(user.value.id, friendId) in r
      ensures user.None? || !connected ==> r == channels
    {
      if user.Some? && connected then Subscribe(channels, PrivateChannelName(user.value.id, friendId))
      else channels
    }

    method SubscribeToPrivateChannel(friendId: int)
      requires Valid()
      modifies this`channels
      ensures Valid()
      ensures channels == old(ChannelsAfterSubscribe(friendId))
      ensures user.Some? && connected ==> multiset(channels)[PrivateChannelName(user.value.id, friendId)] == 1
    {
      if user.None? || !connected {
        return;
      }
      var channelName := PrivateChannelName(user.value.id, friendId);
      SubscribedOnce(channels, channelName);
      if channelName in channels {
        return;
      }
      channels := channels + [channelName];
    }

    /** The "new-message" handler bound on the public channel. */
    method OnPublicMessage(data: Message)
      modifies this`messages
      ensures messages == RoutePublic(old(messages), data)
    {
      if !data.isPrivate {
        messages := messages + [data];
      }
    }

    /** The "new-message" handler bound on a private channel (bound only while there is a user). */
    method OnPrivateMessage(data: Message)
      requires user.Some?
      modifies this`privateMessages
      ensures privateMessages == RoutePrivate(old(privateMessages), user.value.id, data)
    {
      if data.isPrivate {
        var otherUserId := if data.senderId == user.value.id then data.receiverId else Some(data.senderId);
        if IsTruthyId(otherUserId) {
          privateMessages := privateMessages[otherUserId.value := ThreadOf(privateMessages, otherUserId.value) + [data]];
        }
      }
    }

    /** `loadMessages`: the fetched public history replaces the feed; the flag always ends false. */
    method LoadMessages(fetched: Outcome<seq<Message>>)
      modifies this`messages, this`isLoading
      ensures messages == if fetched.Ok? then fetched.value else old(messages)
      ensures !isLoading
    {
      isLoading := true;
      if fetched.Ok? {
        messages := fetched.value;
      }
      isLoading := false;
    }

    /** What a send does once the server has answered: a failure is rethrown with the
        caches unchanged; a message sent to a truthy `receiverId` subscribes to the pair's
        channel and is appended to that friend's thread; a public one waits for its echo. */
    method RecordSent(receiverId: Option<int>, reply: Outcome<Message>) returns (result: Completion)
      requires Valid()
      modifies this`channels, this`privateMessages
      ensures Valid()
      ensures result == if reply.Fail? then Threw(reply.error) else Returned
      ensures if reply.Ok? && IsTruthyId(receiverId)
              then channels == old(ChannelsAfterSubscribe(receiverId.value))
                && privateMessages == AppendToThread(old(privateMessages), receiverId.value, reply.value)
              else channels == old(channels) && privateMessages == old(privateMessages)
    {
      match reply {
        case Fail(error) =>
          result := Threw(error);
        case Ok(newMessage) =>
          result := Returned;
          if IsTruthyId(receiverId) {
            SubscribeToPrivateChannel(receiverId.value);
            privateMessages := AppendToThread(privateMessages, receiverId.value, newMessage);
          }
      }
    }

    /** `sendMessage`: nothing is sent without a user or with blank text; a private send
        caches the server's message under `receiverId`, a public one waits for the push echo. */
    method SendMessage(messageText: string, receiverId: Option<int>, reply: Outcome<Message>)
      returns (request: Option<PostMessage>, result: Completion)
      requires Valid()
      modifies this`channels, this`privateMessages
      ensures Valid()
      ensures request.Some? <==> user.Some? && !IsBlank(messageText)
      ensures request.Some? ==> request.value == PostMessage(user.value.username, Trim(messageText), receiverId)
      ensures result == if request.Some? && reply.Fail? then Threw(reply.error) else Returned
      ensures if request.Some? && reply.Ok? && IsTruthyId(receiverId)
              then channels == old(ChannelsAfterSubscribe(receiverId.value))
                && privateMessages == AppendToThread(old(privateMessages), receiverId.value, reply.value)
              else channels == old(channels) && privateMessages == old(privateMessages)
    {
      request, result := None, Returned;
      if user.None? || IsBlank(messageText) {
        return;
      }
      request := Some(PostMessage(user.value.username, Trim(messageText), receiverId));
      result := RecordSent(receiverId, reply);
    }

    /** `sendFileMessage`: as `SendMessage`, but only a missing user stops the upload. */
    method SendFileMessage(file: FileData, messageText: Option<string>, receiverId: Option<int>,
                           reply: Outcome<Message>)
      returns (request: Option<FileMessageRequest>, result: Completion)
      requires Valid()
      modifies this`channels, this`privateMessages
      ensures Valid()
      ensures request.Some? <==> user.Some?
      ensures request.Some? ==> request.value == FileMessageRequest(user.value.username, file, messageText, receiverId)
      ensures result == if request.Some? && reply.Fail? then Threw(reply.error) else Returned
      ensures if request.Some? && reply.Ok? && IsTruthyId(receiverId)
              then channels == old(ChannelsAfterSubscribe(receiverId.value))
                && privateMessages == AppendToThread(old(privateMessages), receiverId.value, reply.value)
              else channels == old(channels) && privateMessages == old(privateMessages)
    {
      request, result := None, Returned;
      if user.None? {
        return;
      }
      request := Some(FileMessageRequest(user.value.username, file, messageText, receiverId));
      result := RecordSent(receiverId, reply);
    }

    /** `getPrivateMessages`: subscribe, then the fetched history replaces the friend's thread
        and is returned; on failure [] is returned and the cache is kept. */
    method GetPrivateMessages(friendId: int, reply: Outcome<seq<Message>>) returns (r: seq<Message>)
      requires Valid()
      modifies this`channels, this`privateMessages
      ensures Valid()
      ensures channels == old(ChannelsAfterSubscribe(friendId))
      ensures r == if reply.Ok? then reply.value else []
      ensures privateMessages == if reply.Ok? then old(privateMessages)[friendId := reply.value] else old(privateMessages)
      ensures reply.Ok? ==> GetPrivateMessagesFromCache(friendId) == r
    {
      SubscribeToPrivateChannel(friendId);
      match reply {
        case Fail(_) =>
          r := [];
        case Ok(fetched) =>
          privateMessages := privateMessages[friendId := fetched];
          r := fetched;
      }
    }

    /** `getPrivateMessagesFromCache`: the stored thread, or [] for a friend with none. */
    function GetPrivateMessagesFromCache(friendId: int): (r: seq<Message>)
      reads this
      ensures friendId in privateMessages ==> r == privateMessages[friendId]
      ensures friendId !in privateMessages ==> r == []
    {
      ThreadOf(privateMessages, friendId)
    }
  }
}
