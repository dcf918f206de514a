# Chat application core, modelled in Dafny

The application is an Angular chat client and a Spring chat server. Users chat one-to-one or in groups. Messages travel over one STOMP-over-SockJS connection per client.

This project models the stateful decisions on both sides:

- **Client socket service (`WsService`).** This covers:
  - the connect state machine: a missing token, an already-live client, a pending connect or a new socket;
  - capped exponential reconnect delays;
  - the registry of active subscriptions;
  - the `clientId` duplicate filter on inbound frames;
  - the send guard and disconnect.
- **The two chat views.**
  - The one-to-one view (`PersonalChatComponent`) merges each inbound message into the list. It drops the message, replaces a listed entry found by client id or by a look-alike match, or appends it. It also sorts history by time.
  - The group-or-private view (`ChatRoomComponent`) selects its mode from the route. It classifies inbound messages as group or private and appends every accepted one.
  - Both views project `isOwn` and `senderDisplayName` ("You").
- **Server group membership (`ChatService`).**
  - Operations: create a group, add members, remove a member, promote an admin. Each has the authorisation checks that throw.
  - Rooms (`ChatRoom`) hold their lists by reference.
  - The membership invariant: both lists have no duplicates, and every admin is a member.
- **Server message fan-out (`ChatSocketController`, `ChatMessage`).**
  - The handler stamps the message with the server time and fills in the private room.
  - It saves the message, then sends it in order: the room topic, the receiver's private queue, the sender's private queue.
  - `ChatMessage` has no client id and ignores unknown JSON properties. So the server echoes carry no client id.
  - `EchoScenario` follows one message across both sides:
    - both echoes pass the client's duplicate filter;
    - the one-to-one view folds the second echo into the first;
    - the group-or-private view lists the message twice.
- **Small server rules.**
  - The single-use OTP password reset in `UserService`.
  - The case-insensitive user search in `UserController`.
  - The `token=` extraction in the WebSocket handshake interceptor, with Java's `String.split` modelled exactly.

Where the code and the intended behaviour disagree, the model follows the code:

- A successful connect does not re-create registered subscriptions. The registry is never cleared on close.
- `sendMessage` drops the message when not connected. It does not wait for the connection.
- `subscribeToRoom` checks the registry before an `await` and writes it after. The model covers sequential runs only.
- Server echoes carry no client id.
- The one-to-one view builds its optimistic entry but does not list it, because the `push` is commented out.

Every stateful source object is a Dafny `class`: `WsService`, both view components, `ChatRoom`, `java.util.List`, `ChatMessage`, `UserService` and the handshake's attribute map. Each method's `ensures` gives the new state in terms of the old state, or in terms of a specification function whose properties are proved as lemmas.

Effects on the outside world are either appended to a ghost log (`WsService`) or returned as values: STOMP sends, subscriptions, timers and broadcast notices.

Calls into code that is not shown become parameters:

- the repository lookups and saves;
- `createPrivateChat`;
- the password encoder;
- random draws and the clock.

Module layout:

| file | module | models |
|---|---|---|
| wrappers.dfy | Wrappers | `Option`, `Result` |
| text.dfy | Text | trim, ASCII case mapping, substring search, decimal strings |
| seqs.dfy | Seqs | `findIndex`, duplicate-freedom, `List.remove` |
| wire_message.dfy | WireMessage | the client's JSON message and the shared display projection |
| chat_socket.dfy | ChatSocket | `WsService` |
| personal_chat.dfy | PersonalChat | `PersonalChatComponent` |
| chat_room_view.dfy | ChatRoomView | `ChatRoomComponent` |
| room_model.dfy | RoomModel | `ChatRoom` and its `List<String>` fields |
| group_service.dfy | GroupService | the `ChatService` group operations |
| message_model.dfy | MessageModel | `ChatMessage` and its JSON form |
| socket_controller.dfy | SocketController | `ChatSocketController.handleIncomingMessage` |
| accounts.dfy | Accounts | `UserService` |
| user_search.dfy | UserSearch | `UserController.searchUsers` |
| handshake.dfy | Handshake | `JwtHandshakeInterceptor.beforeHandshake` |
| echo_scenario.dfy | EchoScenario | one message's round trip through server and client |

## Model

| member | source | states |
|---|---|---|
| ChatSocket.ReconnectDelay | frontend/src/app/core/services/chat-socket.ts:80 | The delay for attempt count n is 3000·2^n below 4 attempts and 30000 from then on. It is never below 3000 or above 30000. |
| ChatSocket.ReconnectDelayMonotone | frontend/src/app/core/services/chat-socket.ts:80 | The delay never shrinks as the attempt count grows. |
| ChatSocket.ReconnectDelaySequence | frontend/src/app/core/services/chat-socket.ts:24-80 | The first six delays are 3000, 6000, 12000, 24000, 30000, 30000. |
| ChatSocket.Pow2Monotone | frontend/src/app/core/services/chat-socket.ts:80 | `2^m <= 2^n` when `m <= n`. This is the growth the backoff relies on. |
| ChatSocket.OutgoingPayload | frontend/src/app/core/services/chat-socket.ts:139-147 | The payload holds the given room, content, receiver, sender and clock. It has the given client id when that is non-empty, else the fresh id. It has no id, alias or createdAt fields. |
| ChatSocket.EmitRun | frontend/src/app/core/services/chat-socket.ts:156-167 | Definition: the messages `handleIncoming` passes on over a run of deliveries, in order, each decided by `Admit` against the ids seen so far. Its properties are `EmitRunUnique` and `EmitRunWithoutClientIds`. |
| ChatSocket.Admit | frontend/src/app/core/services/chat-socket.ts:156-167 | A message is emitted unchanged exactly when it has content and its client id is not already seen. Only the client id of an emitted message is added to the seen set. |
| ChatSocket.EmitRunUnique | frontend/src/app/core/services/chat-socket.ts:154-167 | Over any run of deliveries the seen set only grows. No emitted client id was seen before the run, and no client id is emitted twice. |
| ChatSocket.EmitRunWithoutClientIds | frontend/src/app/core/services/chat-socket.ts:157-166 | Messages with content and no client id all pass the filter, in order. |
| ChatSocket.WsService.constructor | frontend/src/app/core/services/chat-socket.ts:11-24 | The service starts with no client, not connected, no pending connect, no attempts, an empty registry and an empty seen set. |
| ChatSocket.WsService.Connect | frontend/src/app/core/services/chat-socket.ts:29-77 | No token: rejects and changes nothing. Already live: resolves and changes nothing. Pending: returns the same promise and opens no socket. Otherwise: opens exactly one socket at `wsUrl?token=…`, which becomes the client and the pending promise. The registry is never touched. |
| ChatSocket.WsService.OnConnected | frontend/src/app/core/services/chat-socket.ts:47-58 | Sets `connected`, resets the attempt count to 0, clears the pending promise, schedules the queue subscriptions after 300 ms and resolves the promise. |
| ChatSocket.WsService.ScheduleReconnect | frontend/src/app/core/services/chat-socket.ts:79-83 | Schedules one reconnect after `ReconnectDelay` of the old count and increments the count. |
| ChatSocket.WsService.OnConnectFailed | frontend/src/app/core/services/chat-socket.ts:60-66 | Clears `connected` and the pending promise, schedules one reconnect and rejects. The registry is unchanged. |
| ChatSocket.WsService.OnSocketClosed | frontend/src/app/core/services/chat-socket.ts:69-73 | The client is no longer live. With the close listener attached, `connected` and the promise are cleared and one reconnect is scheduled. Without it, nothing else changes. The registry is unchanged. |
| ChatSocket.WsService.TransportSubscribe | frontend/src/app/core/services/chat-socket.ts:110-119 | One transport subscribe on the current client, recorded in the registry under its destination. |
| ChatSocket.WsService.SubscribeToPrivateQueue | frontend/src/app/core/services/chat-socket.ts:85-101 | Does nothing without a client or when "/user/queue/private" is registered. Otherwise makes exactly one subscribe and registers it. |
| ChatSocket.WsService.SubscribeToUserUpdates | frontend/src/app/core/services/chat-socket.ts:169-185 | Does nothing without a client, when not connected, or when "/user/queue/chats" is registered. Otherwise makes exactly one subscribe and registers it. |
| ChatSocket.WsService.OnQueueTimer | frontend/src/app/core/services/chat-socket.ts:52-55 | Without a client nothing changes. With one, the registry is the old one plus the private queue when it was absent, plus the chats queue when connected and it was absent. Nothing else is registered. The log gains exactly the matching subscribes, private queue first. |
| ChatSocket.WsService.EnsureConnected | frontend/src/app/core/services/chat-socket.ts:122-130 | Succeeds exactly when the client was live or a token is present, and a success leaves it live. A pending connect opens no new socket, and at most one socket is opened. The registry and the seen set are unchanged. |
| ChatSocket.RoomTopic | frontend/src/app/core/services/chat-socket.ts:105 | Definition: the per-room destination "/topic/messages/" followed by the room id. |
| ChatSocket.WsService.SubscribeToRoom | frontend/src/app/core/services/chat-socket.ts:103-120 | An empty room id or an already registered "/topic/messages/"+roomId is a no-op. Otherwise the room topic is subscribed once and registered. At most one socket is opened. With a ready client, the log gains exactly that one subscribe. Other entries are kept. |
| ChatSocket.WsService.SendMessage | frontend/src/app/core/services/chat-socket.ts:133-151 | Not connected: nothing is transmitted. Connected: exactly one transmit of `OutgoingPayload` to "/app/send-message". |
| ChatSocket.WsService.HandleIncoming | frontend/src/app/core/services/chat-socket.ts:156-167 | Emits and updates the seen set exactly as `Admit` does. |
| ChatSocket.WsService.Disconnect | frontend/src/app/core/services/chat-socket.ts:191-203 | When connected: unsubscribes everything, empties the registry, closes the client and clears `connected`. Otherwise nothing changes. The pending promise is cleared in every case. |
| WireMessage.WithDisplay | frontend/src/app/chat/personal-chat/personal-chat.ts:132-137 | The displayed copy has `isOwn` equal to the flag, with display name "You" when own and else `senderUsername || sender`. Every other field is unchanged. |
| WireMessage.Projected | frontend/src/app/chat/chat-room/chat-room.ts:117-121 | `isOwn` holds exactly when the trimmed, lowercased sender equals `me`. The display name is then "You". No other field changes. |
| WireMessage.ProjectAll | frontend/src/app/chat/chat-room/chat-room.ts:138-145 | History maps one-to-one: same count and order, each entry projected. |
| PersonalChat.Accepts | frontend/src/app/chat/personal-chat/personal-chat.ts:75-80 | Definition: the early returns; a message is taken up only with a non-empty room id equal to the view's, a non-blank trimmed sender and non-empty content. |
| PersonalChat.IdMatch | frontend/src/app/chat/personal-chat/personal-chat.ts:91 | Definition: an entry that has a client id equal to the incoming one. |
| PersonalChat.FallbackMatch | frontend/src/app/chat/personal-chat/personal-chat.ts:108-117 | Definition: an entry without a client id and with a `senderUsername`, the same trimmed lowercased sender, the same content and times less than 5000 ms apart. |
| PersonalChat.Merge | frontend/src/app/chat/personal-chat/personal-chat.ts:88-139 | Definition: replace the first `IdMatch` entry, else the first `FallbackMatch` entry, else append. Its behaviour is stated by the `Receive*` lemmas. |
| PersonalChat.Receive | frontend/src/app/chat/personal-chat/personal-chat.ts:74-139 | Definition: the inbound handler, `Merge` for an accepted message and no change otherwise. Its behaviour is stated by the `Receive*` and `Redelivery*` lemmas. |
| PersonalChat.ReceiveIgnores | frontend/src/app/chat/personal-chat/personal-chat.ts:75-80 | A null message, or one with a missing or foreign room, a blank sender or no content, leaves the list unchanged. |
| PersonalChat.ReceiveReplacesById | frontend/src/app/chat/personal-chat/personal-chat.ts:88-103 | A message whose client id is listed replaces the first entry with that id, in place. |
| PersonalChat.ReceiveReplacesLookAlike | frontend/src/app/chat/personal-chat/personal-chat.ts:106-127 | Without an id match, the first entry without a client id that has the same trimmed lowercased sender, the same content and a time less than 5000 ms away is replaced in place. |
| PersonalChat.ReceiveAppends | frontend/src/app/chat/personal-chat/personal-chat.ts:130-139 | When nothing matches, the projected message is appended after the untouched list. |
| PersonalChat.ReceivePlacesProjection | frontend/src/app/chat/personal-chat/personal-chat.ts:88-139 | In every branch the list grows by at most one. The projection sits at one position, and every other entry is unchanged. |
| PersonalChat.RedeliveryKeepsLength | frontend/src/app/chat/personal-chat/personal-chat.ts:106-127 | Delivering the same message twice in a row leaves the length unchanged the second time, for a message with no client id, a non-empty `senderUsername` and a timestamp. |
| PersonalChat.RedeliveryAppendsAgain | frontend/src/app/chat/personal-chat/personal-chat.ts:86-138 | Both conditions are needed. From an empty list, a message with no client id is listed twice in either of two cases. It names its sender only through `sender`. Or it has no timestamp or `createdAt` and the second arrival is at least 5000 ms after the epoch. |
| PersonalChat.ProjectedNoLookAlike | frontend/src/app/chat/personal-chat/personal-chat.ts:108-116 | The listed copy of such a message is not a fallback candidate for it: either it has no `senderUsername`, or its time 0 is at least 5000 ms from the arrival clock. |
| PersonalChat.AppendsWithoutLookAlike | frontend/src/app/chat/personal-chat/personal-chat.ts:86-138 | An accepted message with no client id and no look-alike entry is appended, projected, after the untouched list. |
| PersonalChat.InsertByTime | frontend/src/app/chat/personal-chat/personal-chat.ts:177-181 | Insertion adds exactly the new entry: the multiset gains it and the length grows by one. |
| PersonalChat.SortByTime | frontend/src/app/chat/personal-chat/personal-chat.ts:177-181 | Sorting is a permutation of the fetched list. |
| PersonalChat.InsertByTimeSorted | frontend/src/app/chat/personal-chat/personal-chat.ts:177-181 | Insertion keeps a list sorted by time. |
| PersonalChat.SortByTimeSorted | frontend/src/app/chat/personal-chat/personal-chat.ts:177-181 | History comes out sorted non-decreasing by timestamp, a missing one counting as 0. |
| PersonalChat.InsertByTimeWithKey | frontend/src/app/chat/personal-chat/personal-chat.ts:177-181 | Insertion puts the new entry before every listed entry with the same time. |
| PersonalChat.SortByTimeStable | frontend/src/app/chat/personal-chat/personal-chat.ts:177-181 | The sort is stable: entries with equal times keep their fetched order. |
| PersonalChat.ClientIdFor | frontend/src/app/chat/personal-chat/personal-chat.ts:195 | The generated id starts with "c_". |
| PersonalChat.ClientIdForInjective | frontend/src/app/chat/personal-chat/personal-chat.ts:195 | Different (clock, draw) pairs give different client ids. |
| PersonalChat.PersonalChatComponent.constructor | frontend/src/app/chat/personal-chat/personal-chat.ts:19-22 | An empty username, no receiver, no room and no messages. |
| PersonalChat.PersonalChatComponent.Open | frontend/src/app/chat/personal-chat/personal-chat.ts:39-51 | The username is the stored one or "". The view gets past its synchronous checks, on to the awaited `ws.connect()`, exactly when the route parameter is non-empty; the receiver is then trimmed. |
| PersonalChat.PersonalChatComponent.OnPrivateRoom | frontend/src/app/chat/personal-chat/personal-chat.ts:59-65 | The room id is `id || _id || roomId`. The view proceeds exactly when it is non-empty. |
| PersonalChat.PersonalChatComponent.OnIncoming | frontend/src/app/chat/personal-chat/personal-chat.ts:74-139 | The new list is `Receive` of the old list, whose drop, replace and append behaviour the lemmas above prove. |
| PersonalChat.PersonalChatComponent.MergeIncoming | frontend/src/app/chat/personal-chat/personal-chat.ts:88-139 | Replaces the id match, else the look-alike, else appends. |
| PersonalChat.PersonalChatComponent.LoadMessagesFromDB | frontend/src/app/chat/personal-chat/personal-chat.ts:152-187 | No room: unchanged. Otherwise the list is the fetched history, projected and put through the stable sort by time. |
| PersonalChat.PersonalChatComponent.SendMessage | frontend/src/app/chat/personal-chat/personal-chat.ts:190-219 | Blank content, no room or no receiver: nothing is sent. Otherwise exactly one send, with the generated client id and the trimmed receiver. The message list is never touched. |
| ChatRoomView.RoomMe | frontend/src/app/chat/chat-room/chat-room.ts:47 | `me` is the username lowercased, not trimmed, or "" when there is none. |
| ChatRoomView.SelectMode | frontend/src/app/chat/chat-room/chat-room.ts:53-95 | A non-empty third segment is group mode with that room. Otherwise a non-blank user parameter is private mode with it trimmed and lowercased. Otherwise neither. |
| ChatRoomView.SelectModeReceiverNormalised | frontend/src/app/chat/chat-room/chat-room.ts:86-88 | In private mode the receiver is non-empty, already lowercase, has no space at either end, and equals the trimmed parameter ignoring case. |
| ChatRoomView.IsGroupMsg | frontend/src/app/chat/chat-room/chat-room.ts:108 | Definition: group mode and the message's room id equal to the view's. |
| ChatRoomView.IsPrivateMsg | frontend/src/app/chat/chat-room/chat-room.ts:105-112 | Definition: private mode and a message from the peer to `me` or from `me` to the peer, sender and receiver trimmed and lowercased, the peer lowercased only. |
| ChatRoomView.Deliver | frontend/src/app/chat/chat-room/chat-room.ts:98-127 | Definition: a null message, or one neither group nor private, leaves the list alone; otherwise it is appended, projected. Its behaviour is stated by `DeliverAppendsOrIgnores`. |
| ChatRoomView.ModesExclusive | frontend/src/app/chat/chat-room/chat-room.ts:105-112 | No message is both a group message and a private message. |
| ChatRoomView.DeliverAppendsOrIgnores | frontend/src/app/chat/chat-room/chat-room.ts:100-126 | An accepted message is appended, projected, with no duplicate check. A null or rejected one leaves the list unchanged. |
| ChatRoomView.UntrimmedUsernameNeverOwn | frontend/src/app/chat/chat-room/chat-room.ts:105-121 | A stored username that ends in whitespace never matches a trimmed sender, so none of its messages show as own. |
| Text.LowerDiffersAtEnd | frontend/src/app/chat/chat-room/chat-room.ts:105-121 | A string ending in whitespace and one that does not never lowercase to the same string, so an untrimmed `me` never equals a lowercased trimmed sender. |
| ChatRoomView.ChatRoomComponent.constructor | frontend/src/app/chat/chat-room/chat-room.ts:18-23 | No room, receiver or group name, not a group, no messages, no username. |
| ChatRoomView.ChatRoomComponent.Init | frontend/src/app/chat/chat-room/chat-room.ts:39-95 | The room id is the third segment when there are three. `isGroup` holds exactly in group mode. The receiver is set exactly in private mode, to the selected name. |
| ChatRoomView.ChatRoomComponent.OnGroupInfo | frontend/src/app/chat/chat-room/chat-room.ts:74-78 | The group name is the room's name, or "Group Chat". |
| ChatRoomView.ChatRoomComponent.OnIncoming | frontend/src/app/chat/chat-room/chat-room.ts:98-127 | The new list is `Deliver` of the old one. |
| ChatRoomView.ChatRoomComponent.LoadGroupMessages | frontend/src/app/chat/chat-room/chat-room.ts:133-151 | The list is the fetched history projected one-to-one. |
| ChatRoomView.ChatRoomComponent.LoadPrivateChat | frontend/src/app/chat/chat-room/chat-room.ts:154-175 | The room id is the response's. The list is its messages projected one-to-one. |
| ChatRoomView.ChatRoomComponent.SendMessage | frontend/src/app/chat/chat-room/chat-room.ts:178-194 | Blank content or no room: nothing is sent. A group send has no receiver, a private one has `receiverUsername`. Neither carries a client id of its own. |
| RoomModel.StringList.Empty | backend/src/main/java/com/application/chat/models/ChatRoom.java:20-21 | A new empty list. |
| RoomModel.StringList.Copy | backend/src/main/java/com/application/chat/models/ChatRoom.java:33 | A new list with the other list's elements, for a list that exists. |
| RoomModel.CopyList | backend/src/main/java/com/application/chat/models/ChatRoom.java:33 | Copying fails with a `NullPointerException` exactly when the list is `null`. Otherwise the copy is fresh and has the same elements. |
| RoomModel.StringList.FromSet | backend/src/main/java/com/application/chat/services/ChatService.java:76-77 | A new list with each set element exactly once. |
| RoomModel.StringList.Add | backend/src/main/java/com/application/chat/services/ChatService.java:168 | Appends one element. |
| RoomModel.StringList.AddAll | backend/src/main/java/com/application/chat/services/ChatService.java:119 | Appends the elements given. |
| RoomModel.StringList.Remove | backend/src/main/java/com/application/chat/services/ChatService.java:139-140 | Removes the first occurrence and reports whether there was one. |
| Seqs.RemoveFirst | backend/src/main/java/com/application/chat/services/ChatService.java:139-140 | `List.remove(Object)`: an absent element leaves the list alone. Otherwise the multiset loses one copy of it, and every other element stays. |
| Seqs.RemoveFirstLength | backend/src/main/java/com/application/chat/services/ChatService.java:139-140 | Removing an element that is present shortens the list by exactly one. |
| Seqs.RemoveFirstNoDuplicates | backend/src/main/java/com/application/chat/services/ChatService.java:139-140 | On a duplicate-free list the element is gone afterwards, and the list stays duplicate-free. |
| RoomModel.Enumerate | backend/src/main/java/com/application/chat/services/ChatService.java:76-77 | Iterating a set yields each element exactly once. |
| RoomModel.ChatRoom.Default | backend/src/main/java/com/application/chat/models/ChatRoom.java:15-26 | No id or name, not private, not a group. Two distinct, fresh, empty lists. |
| RoomModel.ChatRoom.constructor | backend/src/main/java/com/application/chat/models/ChatRoom.java:28-34 | The admins are [adminUsername] when one is given, else empty. The members are a fresh copy of the argument. |
| RoomModel.ChatRoom.Make | backend/src/main/java/com/application/chat/models/ChatRoom.java:28-34 | With a `null` member list the constructor throws a `NullPointerException` and no room comes out. Otherwise the room is the constructor's. |
| RoomModel.ChatRoom.SetId | backend/src/main/java/com/application/chat/models/ChatRoom.java:38 | Replaces only the id. |
| RoomModel.ChatRoom.SetName | backend/src/main/java/com/application/chat/models/ChatRoom.java:41 | Replaces only the name. |
| RoomModel.ChatRoom.SetPrivate | backend/src/main/java/com/application/chat/models/ChatRoom.java:44 | Replaces only the private flag. |
| RoomModel.ChatRoom.SetGroup | backend/src/main/java/com/application/chat/models/ChatRoom.java:47 | Replaces only the group flag. |
| RoomModel.ChatRoom.SetAdmins | backend/src/main/java/com/application/chat/models/ChatRoom.java:50 | Stores the list reference itself. |
| RoomModel.ChatRoom.SetMembers | backend/src/main/java/com/application/chat/models/ChatRoom.java:53 | Stores the list reference itself. |
| RoomModel.ChatRoom.SetPairKey | backend/src/main/java/com/application/chat/models/ChatRoom.java:56 | Replaces only the pair key. |
| RoomModel.ChatRoom.IsAdmin | backend/src/main/java/com/application/chat/models/ChatRoom.java:58-60 | True exactly when the admin list exists and contains the name. |
| RoomModel.ChatRoom.IsMember | backend/src/main/java/com/application/chat/models/ChatRoom.java:62-64 | True exactly when the member list exists and contains the name. |
| GroupService.GroupInvariant | backend/src/main/java/com/application/chat/services/ChatService.java:69-79 | Definition: what `createGroup` sets up: both lists present, distinct objects, each free of duplicates, and every admin a member. The group operations are proved to preserve it. |
| GroupService.GroupUpdateNotices | backend/src/main/java/com/application/chat/services/ChatService.java:191-199 | One "Group updated: "+name notice on "/topic/updates" per member, in list order. |
| GroupService.UsernameByEmail | backend/src/main/java/com/application/chat/services/ChatService.java:202-207 | Definition: the username of the user with that email, or nothing. |
| GroupService.Resolve | backend/src/main/java/com/application/chat/services/ChatService.java:56-61 | Null and blank inputs are skipped. An input with '@' becomes the looked-up username, or nothing. Any other input stands for itself. |
| GroupService.FindCreator | backend/src/main/java/com/application/chat/services/ChatService.java:39-46 | A null or blank creator is "Creator username/email is required.". The creator is found by email first, then by username. Otherwise "Creator not found: "+identifier. |
| GroupService.SeparatorIsBlank | backend/src/main/java/com/application/chat/services/ChatService.java:39-56 | The separator characters U+001C to U+001F are blank as `isBlank` has it: a creator made of one is refused before any lookup, and a member input made of one is skipped. |
| Text.BlankIsJavaBlank | backend/src/main/java/com/application/chat/services/ChatService.java:39 | Whatever JavaScript's `trim` empties, Java's `isBlank` also counts as blank, and not the reverse: a lone U+001C is Java-blank but survives `trim`. |
| GroupService.CreatedMembers | backend/src/main/java/com/application/chat/services/ChatService.java:51-66 | Definition: the creator plus every resolved input that is not the creator ignoring case. Its membership is stated by `CreatedMembersAre`. |
| GroupService.CreatedMembersAre | backend/src/main/java/com/application/chat/services/ChatService.java:51-67 | The members are the creator plus exactly the resolved inputs that do not equal the creator ignoring case. |
| GroupService.CollectCreatedMembers | backend/src/main/java/com/application/chat/services/ChatService.java:51-66 | The loop over the inputs builds exactly `CreatedMembers` of them. |
| GroupService.BuildGroup | backend/src/main/java/com/application/chat/services/ChatService.java:69-79 | The new room has the name, exactly [creator] as admins and exactly the member set as members. Its two lists are fresh and distinct, the invariant holds, and the id is the one the save assigns. |
| GroupService.CreateGroup | backend/src/main/java/com/application/chat/services/ChatService.java:38-87 | Fails exactly as `FindCreator` does. On success: fresh lists, admins exactly [creator], members exactly `CreatedMembers`, the invariant holds, and every member is notified. |
| GroupService.AddedMembers | backend/src/main/java/com/application/chat/services/ChatService.java:101-112 | Definition: every resolved input not already in the member list. Its membership is stated by `AddedMembersAre`. |
| GroupService.AddedMembersAre | backend/src/main/java/com/application/chat/services/ChatService.java:101-112 | The new members are exactly the resolved inputs not already members. |
| GroupService.AddedMembersFresh | backend/src/main/java/com/application/chat/services/ChatService.java:109-110 | No new member is already a member. |
| GroupService.CollectNewMembers | backend/src/main/java/com/application/chat/services/ChatService.java:101-112 | With a member list, the collected set is `AddedMembers`. Without one, the loop throws exactly when some input resolves. |
| GroupService.AppendMembers | backend/src/main/java/com/application/chat/services/ChatService.java:119 | The old members stay as a prefix. Each new name is appended once, and duplicate-freedom is preserved. |
| GroupService.AddMembers | backend/src/main/java/com/application/chat/services/ChatService.java:96-125 | Errors: "Group not found: "+id, "No members provided", or the null-list exception. When nothing new remains it returns the group without saving or broadcasting. Otherwise exactly the new names are appended, with no duplicates, and all members are notified. When the admin and member fields hold distinct lists, the admins are unchanged. The invariant, which includes that distinctness, is preserved. |
| GroupService.RemoveMember | backend/src/main/java/com/application/chat/services/ChatService.java:128-153 | Throws unless the caller is an admin and the target a member. On success with two distinct lists, the target's first occurrence leaves each. When both fields hold one list, it loses the first two occurrences. The members and the target are notified. The invariant is preserved, and the target is then in neither list. |
| GroupService.CheckRemoval | backend/src/main/java/com/application/chat/services/ChatService.java:129-137 | The error `removeMember` raises before changing anything: a null admin list, a caller who is not an admin, a null member list, a target who is not a member, or none. |
| GroupService.RemoveAndNotify | backend/src/main/java/com/application/chat/services/ChatService.java:139-150 | Both removals (aliasing included), then the notices: a group update to the remaining members and the removal notice to the target. A room that kept the invariant keeps it, without the target. |
| GroupService.RemoveFromBoth | backend/src/main/java/com/application/chat/services/ChatService.java:139-140 | The two `remove` calls, in order. Distinct lists each lose the first occurrence and keep the invariant. One shared list loses its first two occurrences. |
| GroupService.RemovalKeepsInvariant | backend/src/main/java/com/application/chat/services/ChatService.java:139-140 | Removing a name from both lists of a duplicate-free room whose admins are members keeps that so, and leaves the name in neither list. |
| GroupService.AssignAdmin | backend/src/main/java/com/application/chat/services/ChatService.java:156-175 | Throws unless the caller is an admin and the target a member. Promotion is idempotent and the members never change. The invariant is preserved. |
| MessageModel.Decode | backend/src/main/java/com/application/chat/models/ChatMessage.java:10-21 | Reading a payload keeps exactly its six known properties. |
| MessageModel.Encode | backend/src/main/java/com/application/chat/models/ChatMessage.java:39-54 | Writing a record yields its six properties and no client id, aliases or display fields. |
| MessageModel.DecodeEncode | backend/src/main/java/com/application/chat/models/ChatMessage.java:14-54 | Reading back what was written gives the same record. |
| MessageModel.EchoDropsClientId | backend/src/main/java/com/application/chat/models/ChatMessage.java:10-21 | A payload passed through the record loses its client id and keeps its known properties. |
| MessageModel.ChatMessage.Empty | backend/src/main/java/com/application/chat/models/ChatMessage.java:23 | Every field is null. |
| MessageModel.ChatMessage.constructor | backend/src/main/java/com/application/chat/models/ChatMessage.java:25-32 | Each argument goes into its field, and the id is unset. |
| MessageModel.ChatMessage.WithoutReceiver | backend/src/main/java/com/application/chat/models/ChatMessage.java:34-36 | The five-argument constructor with a null receiver. |
| MessageModel.ChatMessage.FromJson | backend/src/main/java/com/application/chat/models/ChatMessage.java:10-21 | The object read from a payload holds `Decode` of it. |
| MessageModel.ChatMessage.SetRoomId | backend/src/main/java/com/application/chat/models/ChatMessage.java:42 | Replaces only the room id. |
| MessageModel.ChatMessage.SetSenderUsername | backend/src/main/java/com/application/chat/models/ChatMessage.java:45 | Replaces only the sender. |
| MessageModel.ChatMessage.SetReceiverUsername | backend/src/main/java/com/application/chat/models/ChatMessage.java:48 | Replaces only the receiver. |
| MessageModel.ChatMessage.SetContent | backend/src/main/java/com/application/chat/models/ChatMessage.java:51 | Replaces only the content. |
| MessageModel.ChatMessage.SetTimestamp | backend/src/main/java/com/application/chat/models/ChatMessage.java:54 | Replaces only the timestamp. |
| SocketController.NeedsRoom | backend/src/main/java/com/application/chat/controllers/ChatSocketController.java:33-35 | Definition: the room id is null or empty and the receiver is neither, so the private room is looked up. |
| SocketController.Dispatch | backend/src/main/java/com/application/chat/controllers/ChatSocketController.java:28-67 | Definition: the handler as a value, the sends made and whether an exception was swallowed. Its behaviour is stated by `PrivateMessageSendsThree`, `GroupMessageSendsTwo` and `SendsCarryNoClientId`. |
| SocketController.FanOut | backend/src/main/java/com/application/chat/controllers/ChatSocketController.java:55-61 | The plan is the topic broadcast first, the receiver's private copy exactly when the receiver is non-empty, and the sender's copy last. That is 3 or 2 sends, all of the saved record. |
| SocketController.Performed | backend/src/main/java/com/application/chat/controllers/ChatSocketController.java:54-66 | The sends that happen are a prefix of the plan, all accepted, ending at the first send that throws. |
| SocketController.PerformedAll | backend/src/main/java/com/application/chat/controllers/ChatSocketController.java:55-61 | When no send throws, the whole plan is sent. |
| SocketController.PerformedPrefix | backend/src/main/java/com/application/chat/controllers/ChatSocketController.java:55-61 | After k accepted sends, the rest continues from position k. |
| SocketController.PrivateMessageSendsThree | backend/src/main/java/com/application/chat/controllers/ChatSocketController.java:33-61 | A private message whose calls all succeed produces topic, receiver and sender sends, in that order. |
| SocketController.GroupMessageSendsTwo | backend/src/main/java/com/application/chat/controllers/ChatSocketController.java:45-61 | A message without a receiver produces topic and sender sends. |
| SocketController.SendsCarryNoClientId | backend/src/main/java/com/application/chat/controllers/ChatSocketController.java:45-61 | No copy the handler sends carries a client id. |
| SocketController.HandleIncomingMessage | backend/src/main/java/com/application/chat/controllers/ChatSocketController.java:28-67 | The timestamp is overwritten with the server time. The room id is replaced by the private room's id only when it was empty and the receiver non-empty. The sends and the swallowed failure are those of `Dispatch`. |
| SocketController.Publish | backend/src/main/java/com/application/chat/controllers/ChatSocketController.java:54-61 | The sends are `Performed` of the plan. A failure is reported exactly when the plan was cut short. |
| Accounts.OtpFor | backend/src/main/java/com/application/chat/services/UserService.java:83-84 | The OTP is six decimal digits without a leading zero, and its value is 100000+draw, within 100000..999999. |
| Accounts.OtpForInjective | backend/src/main/java/com/application/chat/services/UserService.java:83-84 | Different draws give different OTPs. |
| Accounts.Reset | backend/src/main/java/com/application/chat/services/UserService.java:90-103 | Definition: `resetPasswordWithOtp` as a value: the result, the new OTP store and the new repository. Its behaviour is stated by the `Reset*` lemmas. |
| Accounts.Generate | backend/src/main/java/com/application/chat/services/UserService.java:79-87 | An unknown email fails with "Email not found" and leaves the store unchanged. Otherwise it overwrites only that email's OTP. |
| Accounts.ResetRejectsWrongOtp | backend/src/main/java/com/application/chat/services/UserService.java:91-95 | A missing or different OTP fails with "Invalid OTP" and changes nothing. |
| Accounts.ResetKeepsOtpForMissingUser | backend/src/main/java/com/application/chat/services/UserService.java:97-98 | A right OTP for an email without a user fails and keeps the OTP. |
| Accounts.ResetIsSingleUse | backend/src/main/java/com/application/chat/services/UserService.java:100-102 | A successful reset saves the encoded password and removes only that email's OTP. The same OTP then fails. |
| Accounts.GeneratedOtpResets | backend/src/main/java/com/application/chat/services/UserService.java:79-103 | The OTP just generated for a registered email resets its password. |
| Accounts.UserService.constructor | backend/src/main/java/com/application/chat/services/UserService.java:20-27 | An empty OTP store over the given users. |
| Accounts.UserService.RegisterUser | backend/src/main/java/com/application/chat/services/UserService.java:31-35 | A null user fails with "User cannot be null". Otherwise the user is saved with the encoded password. |
| Accounts.UserService.GenerateOtp | backend/src/main/java/com/application/chat/services/UserService.java:79-87 | Result and new store are those of `Generate`. |
| Accounts.UserService.ResetPasswordWithOtp | backend/src/main/java/com/application/chat/services/UserService.java:90-103 | Result, new store and new users are those of `Reset`, whose properties are proved above. |
| UserSearch.Filtered | backend/src/main/java/com/application/chat/controllers/UserController.java:41-43 | Sound: every result's lowercased username contains the lowercased query. Complete: every such user is in the result. |
| UserSearch.Search | backend/src/main/java/com/application/chat/controllers/UserController.java:40-45 | Throws exactly when some user has no username. Otherwise returns the filter. |
| UserSearch.FilteredIsSubsequence | backend/src/main/java/com/application/chat/controllers/UserController.java:41-43 | The result keeps the repository's order. |
| UserSearch.EmptyQueryFindsAll | backend/src/main/java/com/application/chat/controllers/UserController.java:42 | The empty query returns every user. |
| UserSearch.CaseInsensitive | backend/src/main/java/com/application/chat/controllers/UserController.java:42 | A query and its upper-cased form give the same result. |
| UserSearch.FilteredSameTest | backend/src/main/java/com/application/chat/controllers/UserController.java:42 | Queries with the same lowercase form give the same result. |
| Text.Trim | frontend/src/app/chat/personal-chat/personal-chat.ts:79 | `trim()`: the result has no whitespace at either end, and it is empty exactly when the string is all whitespace. |
| Handshake.SplitFrom | backend/src/main/java/com/application/chat/config/WebSocketConfig.java:50 | Splitting always yields at least one piece. |
| Handshake.Join | backend/src/main/java/com/application/chat/config/WebSocketConfig.java:50 | Definition: the pieces glued back together with the separator between each two. |
| Handshake.SplitFromJoins | backend/src/main/java/com/application/chat/config/WebSocketConfig.java:50 | Splitting loses nothing: the pieces, joined with the separator, give back the string that was split. |
| Handshake.DropTrailingEmpty | backend/src/main/java/com/application/chat/config/WebSocketConfig.java:50 | Only trailing empty strings are dropped: the result is a prefix of the input and does not end in an empty string. |
| Handshake.JavaSplit | backend/src/main/java/com/application/chat/config/WebSocketConfig.java:50 | A string without the separator splits into itself. |
| Handshake.ExtractToken | backend/src/main/java/com/application/chat/config/WebSocketConfig.java:48-50 | No token is found exactly when the query is null or lacks "token=". |
| Handshake.PiecesAvoidSeparator | backend/src/main/java/com/application/chat/config/WebSocketConfig.java:50 | No piece of a split contains the separator. |
| Handshake.JavaSplitAvoidsSeparator | backend/src/main/java/com/application/chat/config/WebSocketConfig.java:50 | No element of a Java split result contains the separator. |
| Handshake.TokenHasNoAmpersand | backend/src/main/java/com/application/chat/config/WebSocketConfig.java:50 | A stored token never contains '&'. |
| Handshake.FirstMarker | backend/src/main/java/com/application/chat/config/WebSocketConfig.java:50 | The first "token=" in P+"token="+X is the one after P. |
| Handshake.NoMarkerInToken | backend/src/main/java/com/application/chat/config/WebSocketConfig.java:50 | No "token=" starts inside the token. |
| Handshake.SecondPiece | backend/src/main/java/com/application/chat/config/WebSocketConfig.java:50 | The second piece of the first split is the token, followed by nothing or by '&'. |
| Handshake.PieceAfter | backend/src/main/java/com/application/chat/config/WebSocketConfig.java:50 | A split piece starting at the token, with no "token=" up to the token's end, is the token followed by nothing or by '&'. |
| Handshake.ExtractsToken | backend/src/main/java/com/application/chat/config/WebSocketConfig.java:49-51 | For P+"token="+T, optionally followed by '&'…, with no "token=" in P and T non-empty without '&' or "token=", the token stored is exactly T. |
| Handshake.AmpersandSplitFirst | backend/src/main/java/com/application/chat/config/WebSocketConfig.java:50 | Splitting T or T+"&"… on '&' gives T first. |
| Handshake.TrailingMarkerFails | backend/src/main/java/com/application/chat/config/WebSocketConfig.java:50 | When the only "token=" ends the query, the index [1] fails. |
| Handshake.Attributes.constructor | backend/src/main/java/com/application/chat/config/WebSocketConfig.java:46 | The attribute map as handed in. |
| Handshake.BeforeHandshake | backend/src/main/java/com/application/chat/config/WebSocketConfig.java:42-58 | Returns true whenever it returns, and throws exactly on an out-of-bounds index. It writes only "jwtToken", and only when a token was extracted. |
| EchoScenario.ServerEchoesTwiceWithoutClientId | backend/src/main/java/com/application/chat/controllers/ChatSocketController.java:55-61 | A room message comes back on the room topic first and on the sender's private queue last, without its client id. Both copies pass the client's duplicate filter. |
| EchoScenario.PersonalChatListsEchoOnce | frontend/src/app/chat/personal-chat/personal-chat.ts:106-127 | The one-to-one view lists the first echo once. The second echo leaves the length unchanged. |
| EchoScenario.ChatRoomListsEchoTwice | frontend/src/app/chat/chat-room/chat-room.ts:116-126 | The group view lists both echoes. |

## Left out

- The transport, promises and timers are abstract. STOMP, SockJS, RxJS subjects and `setTimeout` become:
  - methods the environment calls (connect success, connect failure, socket close, the 300 ms queue timer);
  - entries in a ghost effect log.
- Nothing models a timer firing `connect()` again.
- ChatSocket.WsService.EnsureConnected: the retry loop that waits two seconds after a rejected connect is not modelled. A rejection returns `false`, and a pending connect is taken to succeed at once.
- ChatSocket.WsService.SubscribeToRoom: the `await` between the registry check and the registry write is not modelled. The model covers sequential runs only.
- ChatSocket.WsService.HandleIncoming: the parsed frame is a parameter. A frame whose JSON fails to parse is caught and logged in the source, and the model does not deliver it at all.
- `updateChatList` and the chat-list subject (`chatList$`) only forward a value to the UI. They are not modelled.
- The DOM, scrolling, console logging, the form object, `ngOnDestroy` and `trackByMessage` are left out.
- Date parsing: timestamps are integer milliseconds. An unparsable date, which is `NaN` in the source, is not modelled.
- `uuid`, `Math.random`, `SecureRandom` and the clock are parameters.
- PersonalChat.PersonalChatComponent.OnPrivateRoom: the response is given as its three candidate id fields. The `res.room || res` unwrapping is left to the caller.
- ChatRoomView.ChatRoomComponent.LoadPrivateChat: the response's room id is a parameter. The exception a response without `room` raises is not modelled, nor is the follow-up `subscribeToRoom` call (see `WsService.SubscribeToRoom`).
- Text.Trim: the contract does not say that the result is a contiguous piece of the input. `TrimStart` ensures its result is a suffix of the input, and `TrimEnd` that its result is a prefix; `Trim` is the one applied to the other, but that composition is not restated as a post-condition.
- Case mapping and whitespace are ASCII only. Unicode-aware `toLowerCase` and `equalsIgnoreCase` are narrowed to the ASCII letters. JavaScript's `trim` is narrowed to its ASCII whitespace (Text.IsSpace). Java's `isBlank` follows `Character.isWhitespace`, whose ASCII part also has the separators U+001C to U+001F (Text.IsJavaBlank). Non-ASCII spaces are left out of both.
- `createPrivateChat` and the one-argument `saveMessage` are not part of the shown `ChatService`. The repositories and the messaging template are also not modelled. All of these are function parameters. In the group operations, the repository `save` is taken to return the object saved.
- `getAllUserChatRooms`, the three-argument `saveMessage` and `getMessages` only forward to a repository. They are not modelled.
- The broadcast notices of the group operations are returned as a list. A messaging-template exception part-way through them is not modelled.
- GroupService.FindCreator: the directory maps each email to a username, so it holds only users that have one. A user stored with an email and a null username is not modelled. For such a user `createGroup` finds the creator by email and builds a room whose admin and member are null, while the model reports "Creator not found" unless the text is also a username. A member input giving that user's email resolves to nothing in both, as `fetchUsernameByEmailOrNull` returns null.
- GroupService.CreateGroup: the `HashSet` iteration order is left open. The lists hold each element once, in some order.
- GroupService.AddMembers: the same applies to the new members appended by `addAll`. "Admins unchanged" is stated only for rooms whose two lists are distinct objects. When they are one object (possible through `setAdmins`/`setMembers`), `addAll` grows the admins too, and the ensures describe that list as the member list.
- PersonalChat.RedeliveryKeepsLength: stated only for messages with a non-empty `senderUsername` and a timestamp. Without them, the source itself lists a redelivered message twice (PersonalChat.RedeliveryAppendsAgain).
- GroupService.RemoveMember: invariant preservation is proved only for rooms whose two lists are distinct objects. When they are the same object (possible through `setAdmins`/`setMembers`), the ensures say the shared list loses its first two occurrences of the target, but no invariant is claimed.
- PersonalChat.PersonalChatComponent.Open: the awaited `ws.connect()` (personal-chat.ts:54) is not modelled. When it rejects (no token), `ngOnInit` stops there, before the private-room request.
- GroupService.AssignAdmin: the same restriction to distinct lists applies.
- `createGroup` never sets `isGroup`, and the model keeps that: the created room is not flagged as a group.
- The user repository is a map keyed by email, so emails are taken to be unique.
- Accounts.UserService.RegisterUser: a user without an email is accepted and not stored, because the map has no key for it. The encoder applied to a null password is not modelled, because passwords are non-null strings.
- `loadUserByUsername`, the finders and `getUserById` only forward to the repository. They are not modelled.
- Password encoding (BCrypt), JWT signing and parsing, and Spring Security are foreign calls. The encoder is an opaque function parameter.
- `String.split` takes a regular expression. The separators here, "token=" and "&", have no metacharacters, so the split is modelled as a literal split. The debug print of the token prefix and `afterHandshake` are left out.
- The Spring configuration, the REST controllers that only forward, the DTOs, the Angular HTTP wrappers and the other UI components are not part of this model.
