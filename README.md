# ChatApp state and request model

A Dafny model of the client-side logic of a React Native chat app. The app has a public
chat room and private one-to-one threads. It also has friends, voice notes and file messages.

- **The chat context** (`ChatContext`) is the core. It keeps the public feed and a
  private thread per friend id. It also keeps the loading flag and the push client's
  channel list.
  - Each pair of users shares a push channel named `private-chat-<min>-<max>`.
  - A channel is subscribed, and its handler bound, at most once.
  - A public event joins the feed only when it is not private.
  - A private event goes to its counterparty's thread: the receiver when the signed-in
    user sent it, the sender otherwise.
  - A private send caches the message the server returns.
  - A history load replaces one friend's thread.
  - Nothing is deduplicated by id. The model proves that a sender's own private message
    ends up in the thread twice: once from the send, once from the push echo.
- **The message composer** (`MessageInput`) guards the send and record controls. It also
  formats the recording duration as `m:ss`; the model proves the format reads back to the
  minutes and seconds and is injective.
- **The auth session** (`AuthContext`) holds the user, the token and the loading flag.
  Its transitions are login, register, restoring stored credentials, the online-status
  report and logout.
- **The friend list** (`FriendContext`) holds search results, friends and pending
  requests. Each operation replaces or filters a list and resets the loading flag.
- **The two REST clients.** `ApiService` is the axios service; `ApiClient` is the fetch
  client. The model covers file URLs, the multipart form of a file message, the
  auth-header and 401 interceptors, the request config and the error raised for a
  non-ok response.

Calls to the server, the push service, secure storage (beyond `clearAll`), the
microphone and the clock are not modelled. Each becomes a parameter that gives its outcome: `Ok(value)` or
`Fail(error)` (`Wrappers.Outcome`), a `bool`, or an opaque timestamp. JavaScript
truthiness is written out. An id is truthy when present and non-zero. A string is
truthy when present and non-empty. The JavaScript string built-ins the app relies on
(`trim`, `startsWith`, `replace`, `padStart`, number to string) are in `Text`. Only the
number formatters come with an inverse (`ParseNat`, `ParseInt`) that reads their output
back; the others are specified by what their result is made of.

## Model

| member | source | states |
|---|---|---|
| Text.Trim | components/MessageInput.tsx:50 | `trim()` is a slice of the input with only white space before and after it; it is "" exactly when every character is white space, and otherwise neither starts nor ends with white space |
| Text.StartsWith | services/api.ts:167 | a text that starts with `p` is `p` followed by the rest of the text |
| Text.ReplaceFirst | services/api.ts:170 | `replace` with a string pattern leaves a text without the pattern unchanged and otherwise replaces only its first occurrence |
| Text.IntToString | services/api.ts:106 | the decimal form of an integer is non-empty, starts with a minus sign exactly when the integer is negative, and is all digits otherwise; after the optional sign, its first digit is 0 only for 0 itself |
| Text.IsBlank | components/MessageInput.tsx:50 | `!s.trim()` holds exactly when every character of the text is white space |
| Text.TrimIdempotent | components/MessageInput.tsx:57 | a property of the `trim` built-in: trimming an already trimmed text changes nothing |
| Text.IndexOfFrom | services/api.ts:170 | `indexOf` gives the first position at or after `from` where the pattern occurs, or none when it occurs nowhere there |
| Text.NatToString | components/MessageInput.tsx:221 | the decimal form of a number is a non-empty string of digits with no leading zero: it starts with 0 exactly for 0, which renders as "0" |
| Text.ParseNatToString | components/MessageInput.tsx:221 | the decimal form of a number reads back as that number |
| Text.NatToStringInjective | contexts/ChatContext.tsx:83 | two numbers have the same decimal form exactly when they are equal |
| Text.IntToStringRoundTrip | services/api.ts:106 | `toString()` of any integer, negative ones included, parses back to that integer |
| Text.PadStart | components/MessageInput.tsx:221 | `padStart` keeps the text as its suffix, fills only the front with the pad character and reaches the target length |
| Text.SplitAtSeparator | contexts/ChatContext.tsx:83 | two texts joined around a separator absent from their left parts split back into the same parts |
| ChatContext.PrivateChannelName | contexts/ChatContext.tsx:80-83 | every private channel name starts with "private-chat-" |
| ChatContext.ChannelNameSymmetric | contexts/ChatContext.tsx:80-83 | both participants compute the same private channel name |
| ChatContext.ChannelNameInjective | contexts/ChatContext.tsx:80-83 | for non-negative ids, two pairs get the same channel exactly when they are the same unordered pair |
| ChatContext.PrivateChannelIsNotPublic | contexts/ChatContext.tsx:83 | no private channel name equals the public channel name |
| ChatContext.Subscribe | contexts/ChatContext.tsx:87-94 | after asking for a channel it is subscribed; earlier channels stay in order; at most one channel is added; a list without duplicates keeps none |
| ChatContext.SubscribeIdempotent | contexts/ChatContext.tsx:87-92 | asking again for a subscribed channel changes nothing |
| ChatContext.SubscribedOnce | contexts/ChatContext.tsx:87-94 | a requested channel appears in the list exactly once |
| ChatContext.ThreadOf | contexts/ChatContext.tsx:196 | the stored thread, or [] when the id has none |
| ChatContext.Counterparty | contexts/ChatContext.tsx:99-100 | the other participant is the receiver when the user sent the message and the sender otherwise; it is always one of the message's two parties |
| ChatContext.AppendToThread | contexts/ChatContext.tsx:138-141 | the thread under the id grows by one message at its end, a missing thread starting from []; every other thread is untouched |
| ChatContext.RoutePublic | contexts/ChatContext.tsx:67-72 | the feed grows by exactly one message at its end iff the event is not private; otherwise it is unchanged |
| ChatContext.RoutePublicKeepsFeedPublic | contexts/ChatContext.tsx:69-70 | a feed holding only public messages keeps holding only public messages |
| ChatContext.PublicEchoAppendedTwice | contexts/ChatContext.tsx:67-72 | the same public event delivered twice is appended twice: there is no dedup by id |
| ChatContext.RoutePrivate | contexts/ChatContext.tsx:96-108 | a private event goes to the end of its counterparty's thread and other threads are untouched; nothing changes if it is not private or the counterparty id is absent or 0 |
| ChatContext.RoutePrivateKeepsFiling | contexts/ChatContext.tsx:98-105 | if every cached message is private and filed under its counterparty, that stays true after routing a push event |
| ChatContext.OwnSendKeepsFiling | contexts/ChatContext.tsx:133-141 | the sender's own message, cached under `receiverId` by a private send, keeps that filing invariant |
| ChatContext.OwnPrivateMessageStoredTwice | contexts/ChatContext.tsx:96-141 | the sender's private message is cached once by the send and again by its push echo; the thread gains it twice |
| ChatContext.ChatState.constructor | contexts/ChatContext.tsx:12-17 | the context starts with an empty feed, no threads, no push client and not loading |
| ChatContext.ChatState.SetupPusher | contexts/ChatContext.tsx:62-66 | a fresh push client subscribes to the public channel only when there is a user |
| ChatContext.ChatState.SubscribeToPrivateChannel | contexts/ChatContext.tsx:77-96 | without a user or a push client nothing changes; otherwise the pair's channel is subscribed exactly once and no other channel changes |
| ChatContext.ChatState.ChannelsAfterSubscribe | contexts/ChatContext.tsx:78-94 | the channel list after asking for a friend's channel keeps the old list as its prefix, holds the pair's channel when there is a user and a push client, keeps having no duplicates, and is unchanged otherwise |
| ChatContext.ChatState.OnPublicMessage | contexts/ChatContext.tsx:67-72 | the public handler applies `RoutePublic` to the feed |
| ChatContext.ChatState.OnPrivateMessage | contexts/ChatContext.tsx:96-108 | the private handler applies `RoutePrivate`, seen from the signed-in user |
| ChatContext.ChatState.LoadMessages | contexts/ChatContext.tsx:50-60 | a fetched history replaces the feed, a failure keeps it; the loading flag ends false |
| ChatContext.ChatState.RecordSent | contexts/ChatContext.tsx:133-147 | after the server answers: a failure is rethrown with the caches unchanged; a message to a truthy `receiverId` subscribes to the pair's channel and is appended to that thread; a public one changes nothing |
| ChatContext.ChatState.SendMessage | contexts/ChatContext.tsx:123-148 | nothing is sent without a user or with blank text; the request carries the trimmed text; a failure is rethrown with the caches unchanged; a successful private send subscribes and appends the returned message under `receiverId`; a public send changes nothing |
| ChatContext.ChatState.SendFileMessage | contexts/ChatContext.tsx:150-176 | only a missing user stops the upload; otherwise the same outcome rules as `SendMessage` |
| ChatContext.ChatState.GetPrivateMessages | contexts/ChatContext.tsx:178-193 | subscribes first; on success the friend's thread becomes the fetched list, which is returned and then read back by the cache; on failure [] is returned and the cache is kept |
| ChatContext.ChatState.GetPrivateMessagesFromCache | contexts/ChatContext.tsx:195-197 | the stored thread of the friend, or [] when there is none |
| MessageInput.SendBlocked | components/MessageInput.tsx:50 | a send goes ahead only when nothing is sending and there is a file or a character that is not white space |
| MessageInput.SendButtonDisabled | components/MessageInput.tsx:330-332 | the send button is disabled while sending or recording |
| MessageInput.DisabledButtonMatchesGuard | components/MessageInput.tsx:330-332 | the send button is disabled in exactly the states the send handler ignores, plus while recording |
| MessageInput.FileCaption | components/MessageInput.tsx:57 | a file goes with the trimmed text, or with no text when the text is all white space |
| MessageInput.VoiceFile | components/MessageInput.tsx:150-155 | a voice note is sent as `voice_<time>.m4a` of type `audio/mp4` with no size, and the part between prefix and extension reads back as the time |
| MessageInput.PaddedSeconds | components/MessageInput.tsx:221 | the seconds part is two digits that read back as the seconds |
| MessageInput.FormatDuration | components/MessageInput.tsx:218-222 | the shown duration has at least one minute digit, then a colon, then two characters |
| MessageInput.FormatDurationParts | components/MessageInput.tsx:218-222 | the text is the whole minutes, a colon and two second digits, and reads back as `s / 60` and `s % 60` |
| MessageInput.FormatDurationRoundTrip | components/MessageInput.tsx:218-222 | reading the shown text back gives exactly the whole minutes and the seconds left over |
| MessageInput.FormatDurationInjective | components/MessageInput.tsx:218-222 | two durations are shown the same exactly when they are equal |
| MessageInput.Composer.constructor | components/MessageInput.tsx:23-28 | empty text, no file, not sending, not recording, duration 0 |
| MessageInput.Composer.SetMessage | components/MessageInput.tsx:322 | typing replaces the text |
| MessageInput.Composer.HandleFileSelected | components/MessageInput.tsx:72-74 | the picked file becomes the selected file |
| MessageInput.Composer.ClearSelectedFile | components/MessageInput.tsx:76-78 | the selection is cleared |
| MessageInput.Composer.HandleSend | components/MessageInput.tsx:49-70 | nothing happens with blank text and no file, or while sending; a selected file is sent with its caption, otherwise the text is sent; success clears the text and the file, failure keeps both; the sending flag ends false |
| MessageInput.Composer.ResetRecordingState | components/MessageInput.tsx:182-188 | not recording, duration 0, timer stopped |
| MessageInput.Composer.StartRecording | components/MessageInput.tsx:90-132 | without permission or while already recording nothing changes; otherwise recording starts at duration 0 with the timer running, or everything is reset if the recorder fails |
| MessageInput.Composer.Tick | components/MessageInput.tsx:110-112 | each timer tick adds exactly one second |
| MessageInput.Composer.StopRecording | components/MessageInput.tsx:134-168 | a no-op when not recording; a voice file is sent only when the recorder stopped, a uri exists and the duration exceeds 1; it always ends not recording, at duration 0 and not sending |
| MessageInput.Composer.CancelRecording | components/MessageInput.tsx:170-180 | the recording state is reset whether or not the recorder stops cleanly |
| AuthContext.Accepted | contexts/AuthContext.tsx:73 | an accepted answer is a delivered one that carries data; an answer without `success` is never accepted |
| AuthContext.RejectedAnswerError | contexts/AuthContext.tsx:90-92 | an answer without success or data throws the server's message, or the fallback text when that is empty |
| AuthContext.AuthSession.constructor | contexts/AuthContext.tsx:21-23 | no user, no token, loading |
| AuthContext.AuthSession.IsAuthenticated | contexts/AuthContext.tsx:25 | authenticated only with both a user and a token, and never with an empty token |
| AuthContext.AuthSession.LoadStoredAuth | contexts/AuthContext.tsx:48-66 | the stored token and user are restored, and online status reported, only when both are there; loading ends false |
| AuthContext.AuthSession.Authenticate | contexts/AuthContext.tsx:68-105 | an accepted answer whose credentials are stored sets user and token from it; any other case throws and keeps user and token; loading ends false |
| AuthContext.AuthSession.Login | contexts/AuthContext.tsx:68-105 | as `Authenticate` with the fallback "Login failed"; after success the session is authenticated iff the token is non-empty |
| AuthContext.AuthSession.Register | contexts/AuthContext.tsx:107-144 | as `Authenticate` with the fallback "Registration failed"; after success the session is authenticated iff the token is non-empty |
| AuthContext.AuthSession.UpdateOnlineStatus | contexts/AuthContext.tsx:146-159 | reported iff authenticated; success sets the user's online flag and last-seen time; failures are swallowed and change nothing |
| AuthContext.AuthSession.Logout | contexts/AuthContext.tsx:161-177 | user and token are cleared exactly when the remote logout succeeds; otherwise both are kept (clearing storage cannot reject) |
| FriendContext.WithoutUser | contexts/FriendContext.tsx:47 | the filtered list holds exactly the results whose id differs from the user's |
| FriendContext.WithoutUserConcat | contexts/FriendContext.tsx:47 | the filter distributes over concatenation, so the kept entries keep their order |
| FriendContext.WithoutUserCount | contexts/FriendContext.tsx:47 | entries with the id are all removed; every other entry keeps its multiplicity |
| FriendContext.WithoutAbsentUser | contexts/FriendContext.tsx:47 | a list without that id is unchanged |
| FriendContext.FriendState.constructor | contexts/FriendContext.tsx:11-14 | empty lists, not loading |
| FriendContext.FriendState.SearchUsers | contexts/FriendContext.tsx:17-36 | a blank query empties the results without a request; otherwise success replaces them and failure keeps them; loading ends false |
| FriendContext.FriendState.SendFriendRequest | contexts/FriendContext.tsx:38-57 | on success the results lose exactly that user's entries; on failure they are unchanged; loading ends false |
| FriendContext.FriendState.LoadFriends | contexts/FriendContext.tsx:103-117 | success replaces the friends, failure keeps them; loading ends false |
| FriendContext.FriendState.LoadPendingRequests | contexts/FriendContext.tsx:119-126 | success replaces the pending requests, failure keeps them; the loading flag is not touched |
| FriendContext.FriendState.AcceptFriendRequest | contexts/FriendContext.tsx:59-79 | on success both the pending requests and the friends are reloaded; loading ends false |
| FriendContext.FriendState.RejectFriendRequest | contexts/FriendContext.tsx:81-101 | on success only the pending requests are reloaded; loading ends false |
| FriendContext.FriendState.ClearSearchResults | contexts/FriendContext.tsx:128-130 | the results are emptied |
| ApiService.FirstApiSegment | services/api.ts:14 | the first "/api" in the base URL is its path segment at index 20 |
| ApiService.FileOrigin | services/api.ts:170 | removing the first "/api" from the base URL leaves `http://10.0.2.2:3000` |
| ApiService.GetFileUrl | services/api.ts:166-171 | a URL starting with "http" passes through; any other path gets the origin in front; every result starts with "http" |
| ApiService.GetFileUrlIdempotent | services/api.ts:166-171 | applying `getFileUrl` twice gives the same as once |
| ApiService.FileMessageForm | services/api.ts:103-108 | the fields are username, then message only if non-empty, then receiverId only if truthy, then file; the receiverId field is `receiverId.toString()`, the id's canonical decimal form, and parses back to the id |
| ApiService.AuthorizeRequest | services/api.ts:29-40 | with a stored token the Authorization header carries exactly that bearer token; otherwise and for every other header, the headers are unchanged |
| ApiService.ClearAll | services/storage.ts:63-65 | each credential is removed when its removal succeeds and kept when it fails; the clear never rejects |
| ApiService.OnResponseError | services/api.ts:43-53 | every error still rejects; a 401 clears the stored credentials as far as each removal succeeds, any other status keeps them |
| ApiService.DataOrEmpty | services/api.ts:81 | an absent list reads as [] and a present one as itself |
| ApiClient.FileOrigin | utils/api.ts:97 | removing the first "/api" from this file's base URL leaves `http://10.0.2.2:3000` |
| ApiClient.GetFileUrl | utils/api.ts:93-98 | a URL starting with "http" passes through; any other path gets the origin in front; every result starts with "http" |
| ApiClient.SameFileUrlAsService | utils/api.ts:93-98 | the fetch client's `getFileUrl` agrees with the service's on every input |
| ApiClient.GetFileUrlIdempotent | utils/api.ts:93-98 | applying `getFileUrl` twice gives the same as once |
| ApiClient.RequestUrl | utils/api.ts:10 | the request URL is the base URL followed by the endpoint |
| ApiClient.ConfigAsWritten | utils/api.ts:12-18 | as written, a caller's headers replace the merged headers outright |
| ApiClient.Config | utils/api.ts:12-18 | the merged config keeps every caller header and keeps the JSON Content-Type unless the caller sets one; it adds no other header |
| ApiClient.CallerHeadersDropJsonContentType | utils/api.ts:12-18 | a POST with only an Authorization header loses the JSON Content-Type as written, and keeps it once merged |
| ApiClient.SameConfigWithoutCallerHeaders | utils/api.ts:35-91 | without caller headers, as every caller in the file does, the written and merged configs agree |
| ApiClient.CheckResponse | utils/api.ts:20-32 | an ok response returns its body; a non-ok one throws the body's message, or the fallback text when it has none; a network failure is rethrown |
| ApiClient.Request | utils/api.ts:6-33 | `request` fetches the endpoint's URL with the config as the code builds it, which equals the merged config when the caller passes no headers; "API request failed" is its fallback error text |
| ApiClient.GetMessages | utils/api.ts:35-38 | /messages with no method, so fetch's default GET, no body and only the JSON header; an absent list reads as []; a failure throws what `request` throws: a network failure is rethrown, and a non-ok response throws the body's message or "API request failed" |
| ApiClient.SendMessage | utils/api.ts:40-49 | POST /messages with the encoded body and the JSON header; returns the body's data; a failure throws what `request` throws: a network failure is rethrown, and a non-ok response throws the body's message or "API request failed" |
| ApiClient.GetUserMessages | utils/api.ts:86-91 | /messages/user/<username> with no method, so fetch's default GET, no body and only the JSON header; an absent list reads as []; a failure throws what `request` throws: a network failure is rethrown, and a non-ok response throws the body's message or "API request failed" |
| ApiClient.FileMessageForm | utils/api.ts:56-70 | the fields are username, then message only if non-empty, then a file made of uri, type and name; there is no receiverId field |
| ApiClient.SendFileMessage | utils/api.ts:51-84 | POST of that form to /messages/file with no headers of its own, with the username first, the message second when non-empty and the uri, name and type of the file last; a non-ok response throws the body's message or "Failed to send file"; a network failure is rethrown |

## Left out

- React effect timing: when the providers call `setupPusher`, `loadMessages`, `loadStoredAuth` and `updateOnlineStatus`, and the cleanup closures, are not modelled. The operations are modelled as they run once called.
- The push client's construction, connection options and disconnect are not modelled. It is reduced to whether it exists and its list of subscribed channels.
- The `subscription_succeeded` and `subscription_error` handlers only log, so they are not modelled.
- Toasts, alerts, console logging and animations are left out. They show text and do not change state.
- Secure storage is not modelled beyond `clearAll`: what reads and saves return is an input to the methods. The microphone permission, the recorder, `Date.now()` and `new Date().toISOString()` are inputs too.
- AuthContext.AuthSession.Logout: the stored credentials are not session state, so a removal that fails and leaves one stored shows up only in `ApiService.ClearAll`.
- `apiService.logout` and `apiService.updateOnlineStatus` are not defined in services/api.ts, so they are external calls whose outcome is a parameter.
- The axios and fetch transports, and their timeout, are not modelled. The service's individual endpoint methods are reduced to their outcomes, apart from the file-message form and the empty-list default.
- ApiClient.SendMessage: `JSON.stringify({ username, message })` is not modelled. The encoded body is a parameter.
- ChatContext.ChatState.LoadMessages: the fetched history is stored as the server sends it, with no filter on private messages, as in the code.
- MessageInput.Composer.StopRecording: the upload's outcome is not a parameter. A failed upload is caught and ends in the same state as a successful one.
- MessageInput.Composer.HandleSend: the text call carries the untrimmed text, as in the code. The chat context trims it.
- AuthContext.AuthSession.IsAuthenticated: follows the code's `!!token`, so an empty token does not authenticate. Any present user object is truthy.
- AuthContext.AuthSession.Authenticate: the toast text built from the error is not modelled. Only the error that is rethrown is.
- FriendContext.FriendState.AcceptFriendRequest: the request id is only forwarded to the server, so it appears in no postcondition. The same holds for RejectFriendRequest.
- ChatContext.ChannelNameInjective: proved for non-negative ids only. The server issues such ids.
- ApiClient.Config: a headers key present with the value `undefined` is not modelled. Absent headers are `None`.
- Float-based file-size and audio-time formatting, rendering, gestures and the file picker are not part of this model.
- The stale declarations in types/index.ts are not followed. `Message` carries the `isPrivate`, `senderId` and `receiverId` fields the contexts read.

## Findings

| source | as written | input that shows it | evidently intended | confidence | as-written member | corrected member |
|---|---|---|---|---|---|---|
| utils/api.ts:12-18 | `...options` is spread after the merged `headers`, so a caller's `headers` replace them and the JSON Content-Type is lost | `request("/x", { method: "POST", headers: { Authorization: "Bearer t" }, body: "{}" })` sends no Content-Type | the caller's headers merged over the JSON Content-Type | not executed | ApiClient.ConfigAsWritten (shown by ApiClient.CallerHeadersDropJsonContentType) | ApiClient.Config (equal to what ApiClient.Request sends whenever no headers are passed, as in every caller) |
