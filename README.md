# reelchat: presence, routing and history core in Dafny

This project models the real-time core of reelchat, a socket.io chat application. Its parts are:

- **The socket server** (`SocketHandler`). The module-level `onlineUsers` registry (user id to socket, username and avatar) and the room sets of the connected sockets are fields of the `SocketServer` class. There is one method per socket event:
  - `connection`, `disconnect`;
  - `message:send`;
  - `typing:start` / `typing:stop`;
  - `room:join`, `room:leave`, `private:join`.

  Every `emit` becomes an `Emission(targets, event)` appended to the server's `log`. The targets are the connected sockets the emit reaches. As in socket.io (version 3 on), every socket starts in the room named by its own id, and `io.to(x)` reaches every connected socket whose room set holds `x`. An emit through the socket itself (`socket.to(x)`, `socket.broadcast`) leaves out every socket in the room named by the emitter's id: the emitter alone, unless another socket has joined a room of that name.
- **The Message schema** (`MessageModel`): the stored record, the validators `Message.create` runs (required, trim, maxlength 2000 in UTF-16 units, the `type` enum) and the defaults it fills in.
- **The User collection** (`UserModel`). Only the parts the handler and the controller touch are modelled: the `isOnline`/`lastSeen` update and the `users:online` snapshot.
- **The request validators** (`Validators`): the express-validator chains of registration, login and messages, each as the ordered list of failing rules.
- **The history and user-list endpoints** (`ChatController`). This covers:
  - `parseInt` of the `page` and `limit` query parameters with their `|| 1` / `|| 50` fallbacks;
  - the skip arithmetic and `Math.ceil(total / limit)`;
  - the filter, sort newest-first, skip, limit and reverse pipeline, and the `500 Server error` path.
- **The browser's socket provider** (`SocketContext`). The state updaters for each inbound event are pure functions. The provider itself is the `SocketClient` class: its `useState` fields, the event handlers that change them, and the connected-guarded emits with their payload defaults.
- **The registration and login forms** (`RegisterForm`, `LoginForm`): `validateForm` as the first failing check of a fixed order, and `handleSubmit` as a guard on it.
- **The message input box** (`MessageInput`). The `Composer` class holds the `isTyping` flag and the pending stop timer. Its methods are change, timer firing, submit and key press. Every callback to the parent is recorded in `calls`.
- **The chat page** (`ChatPage`), which covers:
  - how the open conversation addresses sends and typing notices;
  - which typing notices are shown;
  - which history URL is requested, and which server route it reaches;
  - the history-loading sequence.

Shared pieces:

- `Common`: `Option` and an order-preserving `Filter`.
- `JsString`: JavaScript's `trim` whitespace set, UTF-16 length, ASCII character classes and string order.
- `Protocol`: ids and the payloads exchanged between browser and server.

Where the code and the behaviour one might expect from a chat gateway differ, the model follows the code:

- The registry holds one socket per user. A second connection of the same user replaces the first in `onlineUsers`. Closing either tab deletes the user's entry, even while the other tab stays connected (`SocketHandler.SecondTabScenario`).
- A private message to oneself is emitted twice to the sender's socket. Nothing removes duplicate deliveries (`SocketHandler.PrivateSendToSelfNotDeduplicated`).
- On disconnect the leaving user is marked offline in the User collection whichever socket left, so the snapshot omits a user who still has another tab open.

Conventions:

- Strings are sequences of Unicode scalar values. JavaScript `.length` is `Utf16Length`: a character above U+FFFF counts twice.
- express-validator's `isLength` is `ValidatorLength`: it counts code points and ignores the variation selectors U+FE0E and U+FE0F.
- The database is a parameter: a sequence of documents, or `None` when the query fails. `Message.create` is a `StoreOutcome`: it fails, or it succeeds under a given id and creation time, with `populate` succeeding or not.
- Timestamps are integers.
- The 2000 ms typing timer is the event `Composer.TimerFires`.

## Model

| member | source | states |
|---|---|---|
| SocketHandler.SocketServer.constructor | server/socket/socketHandler.js:4-5 | The registry starts empty, with no connected sockets and nothing emitted. |
| SocketHandler.SocketServer.Connect | server/socket/socketHandler.js:8-34 | The user is marked online. `onlineUsers[userId]` is set to this socket, replacing any earlier socket of the user. The socket is in its own room and `general`. The log gains `users:online` to every socket and `user:joined` to every socket outside the room named by this socket's id. The registry keeps pointing only at connected sockets of the right user. |
| SocketHandler.SocketServer.Disconnect | server/socket/socketHandler.js:143-164 | The socket is gone. The user is marked offline with `lastSeen`. `onlineUsers` loses the user's entry unconditionally. The log gains the snapshot to the remaining sockets and `user:left` to those of them outside the room named by the departed socket's id. |
| SocketHandler.SocketServer.Send | server/socket/socketHandler.js:37-85 | The Message collection gains the stored record if there is one, and the log gains exactly the handler's emissions. |
| SocketHandler.SocketServer.Typing | server/socket/socketHandler.js:88-122 | Only the log changes: it gains the typing emissions, and nothing is persisted. |
| SocketHandler.SocketServer.JoinRoom | server/socket/socketHandler.js:125-128 | Only this socket's room set changes: it gains the room. |
| SocketHandler.SocketServer.LeaveRoom | server/socket/socketHandler.js:131-134 | Only this socket's room set changes: it loses the room. |
| SocketHandler.SocketServer.PrivateJoin | server/socket/socketHandler.js:137-140 | The socket joins the room named by the sorted pair of its user id and the recipient id. |
| SocketHandler.MembersOfOwnRoom | server/socket/socketHandler.js:74 | When no other socket has joined the room named by a socket's id, `io.to(socketId)` reaches exactly that socket. |
| SocketHandler.PrivateRoomName | server/socket/socketHandler.js:138 | The private room is the two ids joined with `-`, in one of the two orders. |
| SocketHandler.PrivateRoomNameSymmetric | server/socket/socketHandler.js:138 | `private:join` by A for B and by B for A yield the same room. |
| SocketHandler.PrivateRoomNameInjective | server/socket/socketHandler.js:138 | For ids without `-`, the room name determines the unordered pair of users. |
| SocketHandler.PrivateRoomNameCollision | server/socket/socketHandler.js:138 | With `-` inside ids, the different pairs ("a-b","c") and ("a","b-c") share one room. |
| SocketHandler.SendInitValid | server/socket/socketHandler.js:46-52 | Non-blank content within 2000 UTF-16 units passes every schema validator once the handler has trimmed it. |
| SocketHandler.SendInitTooLong | server/socket/socketHandler.js:46-52 | Content whose trimmed form is over 2000 units trips the schema's `maxlength`. |
| SocketHandler.StoredTooLong | server/socket/socketHandler.js:46-52 | Over-long content stores nothing even when the database would accept the write. |
| SocketHandler.StoredWhen | server/socket/socketHandler.js:46-52 | Past the blank check, a record is stored exactly when the create succeeds and the trimmed content is within 2000 units. |
| SocketHandler.StoredRecordFields | server/socket/socketHandler.js:39-52 | The stored record is valid and holds the trimmed content, with `type` text. `room` defaults to general and `isPrivate` to false. `recipient` is the recipient id only for a private message, null otherwise. `readBy` is empty, and the id and creation time come from the store. |
| SocketHandler.SendSuccessShape | server/socket/socketHandler.js:46-80 | When content, store and populate all succeed, the handler stores the record and emits it along the private or the room branch. |
| SocketHandler.SendRejectsBlankContent | server/socket/socketHandler.js:41-43 | Missing or whitespace-only content stores nothing. Its only emission is 'Message content is required' to the sender. |
| SocketHandler.SendFailureScopedToSender | server/socket/socketHandler.js:81-84 | Any failure of create, schema or populate emits only 'Failed to send message' to the sender. Nothing is delivered. A record remains only when populate failed after a successful create. |
| SocketHandler.SendStoresTrimmedMessage | server/socket/socketHandler.js:46-52 | A successful send stores a valid record of the sender's trimmed content and emits no error. |
| SocketHandler.RouteDelivers | server/socket/socketHandler.js:70-80 | Routing emits no error. In the private branch it reaches the sender's socket plus the recipient's socket room when the recipient is online. Otherwise it makes one emission to the room's members. |
| SocketHandler.PrivateSendDelivery | server/socket/socketHandler.js:70-77 | A private message with a recipient reaches the sender always, and the recipient only if online. An offline recipient is not an error. |
| SocketHandler.PublicSendDelivery | server/socket/socketHandler.js:77-80 | Every other message, including `isPrivate` without a recipient, is one `message:received` to the members of the room (general by default). |
| SocketHandler.PrivateSendToSelfNotDeduplicated | server/socket/socketHandler.js:72-76 | A private message to oneself is emitted twice, identically, to the sender's socket. |
| SocketHandler.TypingAddressing | server/socket/socketHandler.js:88-122 | Typing events carry `{userId, username}`. With a recipient id they reach only the recipient's socket room, and nobody when the recipient is offline. Without one they reach the room's members minus the members of the room named by the sender's socket id. |
| SocketHandler.TypingExcludesSender | server/socket/socketHandler.js:96-103 | The typist's own socket never gets its typing event, unless it is itself the recipient's registered socket or has joined a room of that name, or, without a recipient, it has left the room named by its own id. |
| SocketHandler.TypingEchoAfterLeavingOwnRoom | server/socket/socketHandler.js:101-103 | A socket that has left the room named by its own id hears its own typing in a room it is in. |
| SocketHandler.ConnectPresence | server/socket/socketHandler.js:26-34 | The snapshot reaches every connected socket and lists the newcomer. `user:joined` reaches every socket outside the room named by the newcomer's id, never the newcomer, and, when no other socket has joined that room, exactly every other socket. |
| SocketHandler.DisconnectPresence | server/socket/socketHandler.js:155-163 | The snapshot reaches every remaining socket and has no entry for the leaving user. `user:left` reaches every remaining socket outside the room named by the departed socket's id, which is all of them when none has joined a room of that name. |
| UserModel.MarkUser | server/socket/socketHandler.js:147-150 | `findByIdAndUpdate` changes only the documents with that id: the new flag, and the `lastSeen` timestamp when one is given. Every other document is untouched. |
| UserModel.OnlineSnapshot | server/socket/socketHandler.js:26 | The snapshot holds the profile of every online document and nothing that is not one. |
| UserModel.MarkUserSnapshot | server/socket/socketHandler.js:147-157 | After marking a user online, its profile is in the next snapshot. After marking it offline, no snapshot entry has its id. |
| MessageModel.SchemaErrors | server/models/Message.js:9-19 | `required` fails exactly for missing or blank content. `maxlength` fails exactly when the trimmed content exceeds 2000 units. `enum` fails exactly for a type other than text, image or file. |
| MessageModel.Create | server/models/Message.js:3-41 | The create fails exactly when some validator fails, and reports all of them. On success the record is valid, with trimmed content, and every unset field takes its default. |
| Protocol.WithDefault | server/socket/socketHandler.js:39 | A destructuring default replaces only an undefined field. |
| Common.Filter | client/src/context/SocketContext.js:74 | `filter` keeps exactly the elements satisfying the predicate, and nothing else. |
| Common.FilterIdempotent | client/src/context/SocketContext.js:94 | Filtering out a user a second time changes nothing. |
| Common.FilterSamePredicate | server/controllers/chatController.js:50-56 | Filters with pointwise-equal predicates give the same result. |
| JsString.TrimStart | server/controllers/chatController.js:10 | The leading whitespace `parseInt` skips is a prefix of the input, and what remains does not start with whitespace. |
| JsString.TrimEnd | server/socket/socketHandler.js:48 | It removes a whitespace suffix, and the result does not end with whitespace. |
| JsString.Trim | server/socket/socketHandler.js:48 | The result neither starts nor ends with whitespace. |
| JsString.TrimEmptyIffBlank | server/socket/socketHandler.js:41 | `content.trim() === ''` holds exactly when the content is whitespace only. |
| JsString.TrimIdempotent | server/models/Message.js:12 | The schema's `trim` setter leaves the handler's already trimmed content unchanged. |
| JsString.Utf16Length | client/src/pages/Register.js:32 | JavaScript `.length` lies between the number of characters and twice that number. |
| JsString.Utf16LengthOfBmp | client/src/pages/Register.js:32 | Without characters above U+FFFF, `.length` counts the characters. |
| JsString.LexLeTotal | server/socket/socketHandler.js:138 | The string order `sort()` uses is total. |
| JsString.LexLeAntisymmetric | server/socket/socketHandler.js:138 | The string order `sort()` uses is antisymmetric. |
| Validators.ValidatorLength | server/middleware/validators.js:8 | `isLength` never counts more than the number of characters. |
| Validators.UsernameErrors | server/middleware/validators.js:6-18 | Each rule is reported exactly when it fails: length 3 to 20, word characters only, lower-cased name not taken. Nothing else is reported. |
| Validators.PasswordErrors | server/middleware/validators.js:19-25 | Each rule is reported exactly when it fails: at least 6 long, a digit, a letter. Nothing else is reported. |
| Validators.RegisterErrors | server/middleware/validators.js:5-26 | Registration passes exactly when the trimmed username is 3 to 20 word characters and not taken, and the password is at least 6 long with a digit and a letter. |
| Validators.LoginErrors | server/middleware/validators.js:29-37 | 'Username is required' is reported exactly for a blank username, and 'Password is required' exactly for an empty untrimmed password. The username failure comes first. |
| Validators.MessageErrors | server/middleware/validators.js:40-47 | 'Message content is required' is reported exactly for blank content, and the 2000 limit exactly when the trimmed content exceeds it. |
| RegisterForm.UsernameFailures | client/src/pages/Register.js:28-39 | Each username check fails exactly when: blank; untrimmed `.length` outside 3..20; not only letters, digits and underscore. |
| RegisterForm.PasswordFailures | client/src/pages/Register.js:40-59 | Each password check fails exactly when: empty; `.length` under 6; no digit; no letter; different from the confirmation. |
| RegisterForm.ValidateRegister | client/src/pages/Register.js:27-62 | The form is valid exactly when no check fails. Otherwise `localError` is the message of the first failing check in source order. On success it is cleared. |
| RegisterForm.RegisterSubmission | client/src/pages/Register.js:64-70 | `register(username, password)` is called exactly when every check passes, and never otherwise. |
| RegisterForm.FormAccepted | client/src/pages/Register.js:27-61 | An accepted form has a word-character username of 3 to 20 units and a matching password of at least 6 units with a digit and a letter. |
| RegisterForm.ClientAcceptsServerUsername | client/src/pages/Register.js:32-39 | A username the form accepts passes the server's length and character rules. |
| RegisterForm.ClientAcceptsServerAgrees | client/src/pages/Register.js:27-61 | For passwords without astral characters or variation selectors, the server refuses a form-accepted registration only when the name is taken. |
| RegisterForm.ServerAcceptsClientAccepts | client/src/pages/Register.js:27-61 | A registration the server accepts, with an untrimmed-equal username and a matching confirmation, passes the form. |
| RegisterForm.AstralPasswordDisagreement | client/src/pages/Register.js:44-47 | The password "😀😀a1" passes the form's `.length` check (6) but fails the server's `isLength` (4). |
| LoginForm.ValidateLogin | client/src/pages/Login.js:26-37 | The form's verdict equals the server's `loginValidation`. The error is 'Username is required' for a blank name, else 'Password is required' for an empty password. A whitespace-only password passes. On success the error is cleared. |
| LoginForm.LoginSubmission | client/src/pages/Login.js:39-45 | `login` is called with the typed credentials exactly when validation passes. |
| ChatController.ParseInt | server/controllers/chatController.js:10 | Empty or whitespace-only input is NaN. A leading digit gives a non-negative number. A negative result needs a leading `-`. |
| ChatController.ParseIntOfDigits | server/controllers/chatController.js:10 | `parseInt` of a digit string is the number the digits denote. |
| ChatController.ParseIntOfNegativeDigits | server/controllers/chatController.js:10 | `parseInt` of `-` followed by digits is the negated number. |
| ChatController.ParseIntOfIntToString | server/controllers/chatController.js:10 | `parseInt` inverts the decimal rendering of every integer. |
| ChatController.ParamInt | server/controllers/chatController.js:10-11 | The parameter is the parsed integer, or the default when it is absent, NaN or 0. The result is never 0. |
| ChatController.ParamIntOfNumber | server/controllers/chatController.js:46-47 | A page or limit given as a non-zero decimal is used as is. |
| ChatController.CeilDivBounds | server/controllers/chatController.js:27 | `Math.ceil(total / limit)` is the least number of `limit`-sized pages holding `total` messages (mirrored for a negative limit). |
| ChatController.InsertNewest | server/controllers/chatController.js:16 | Insertion adds exactly the one message, keeping the others. |
| ChatController.InsertNewestOrder | server/controllers/chatController.js:16 | Inserting into a newest-first list keeps it newest first. |
| ChatController.NewestFirst | server/controllers/chatController.js:59 | The sort is a permutation of the matching messages. |
| ChatController.NewestFirstOrdered | server/controllers/chatController.js:59 | The sort leaves the messages newest first. |
| ChatController.Reverse | server/controllers/chatController.js:28 | `reverse()` puts element `i` at position `len-1-i`. |
| ChatController.Window | server/controllers/chatController.js:17-18 | `skip(skip).limit(limit)` is the slice from `min(skip, len)` of at most `abs(limit)` documents. |
| ChatController.PageOf | server/controllers/chatController.js:16-28 | The page is the block of the sorted messages starting at the skip, reversed, with length `abs(limit)` or whatever remains. |
| ChatController.ReversedBlockOldestFirst | server/controllers/chatController.js:28 | A reversed block of a newest-first list is oldest first. |
| ChatController.ReversedBlockBounds | server/controllers/chatController.js:16-18 | Everything after the block in the newest-first list is no newer than anything in it. |
| ChatController.Paginate | server/controllers/chatController.js:12-36 | A failed query or a negative skip gives 500 'Server error'. Otherwise: `count` is the returned length and at most `abs(limit)`; `total` counts all matches; `page` is echoed; `pages` is `ceil(total/limit)`; the data is oldest first and drawn from the matches. |
| ChatController.GetMessages | server/controllers/chatController.js:7-37 | Room history returns only non-private messages of that room, and `total` counts all of them regardless of page. It errs exactly on a database failure or a negative skip. |
| ChatController.GetPrivateMessages | server/controllers/chatController.js:42-86 | Private history returns only private messages between the two users in either direction. `total` counts all of them, and the errors are as above. |
| ChatController.PrivateHistorySymmetric | server/controllers/chatController.js:50-56 | Both participants get the same history for the same request. |
| ChatController.PageIsNewestBlock | server/controllers/chatController.js:14-28 | The page holds the newest-first messages from position `skip` to `skip + abs(limit)`, turned oldest first. |
| ChatController.PageLeavesOnlyOlder | server/controllers/chatController.js:14-28 | Matching messages past the page's end are no newer than any returned message. |
| ChatController.PageCount | server/controllers/chatController.js:12-24 | `count` is `abs(limit)`, or the number of matches left past the skip when fewer remain. |
| ChatController.PageNonEmptyIffWithinPages | server/controllers/chatController.js:12-27 | With a positive limit and a page from 1, the page is non-empty exactly when `page <= pages`. |
| ChatController.GetOnlineUsers | server/controllers/chatController.js:91-107 | Exactly the online users are returned, `count` is their number, and a failure gives 500. |
| ChatController.GetAllUsers | server/controllers/chatController.js:112-129 | Exactly the users other than the requester are returned, `count` is their number, and a failure gives 500. |
| SocketContext.WithJoined | client/src/context/SocketContext.js:63-70 | `user:joined` appends the newcomer only when no entry has its `_id`. |
| SocketContext.WithoutUser | client/src/context/SocketContext.js:74 | `user:left` removes every entry with that id, keeps every other entry, and adds nothing. |
| SocketContext.WithTyping | client/src/context/SocketContext.js:84-91 | `user:typing` appends only when no entry has that `userId`. |
| SocketContext.WithoutTyping | client/src/context/SocketContext.js:93-95 | `user:stopped-typing` removes every entry with that `userId` and keeps the rest. |
| SocketContext.JoinedKeepsIdsDistinct | client/src/context/SocketContext.js:63-70 | `user:joined` keeps the online list free of duplicate ids and leaves the user listed. |
| SocketContext.JoinedIdempotent | client/src/context/SocketContext.js:63-70 | A repeated `user:joined` changes nothing. |
| SocketContext.FilterKeepsIdsDistinct | client/src/context/SocketContext.js:74 | Filtering keeps a duplicate-free online list duplicate-free. |
| SocketContext.FilterKeepsTypersDistinct | client/src/context/SocketContext.js:75 | Filtering keeps a duplicate-free typing list duplicate-free. |
| SocketContext.LeaveIdempotent | client/src/context/SocketContext.js:74 | Removing an absent user changes nothing, and removing twice equals removing once. |
| SocketContext.RoomOrGeneral | client/src/context/SocketContext.js:113 | A falsy room becomes 'general', and a truthy one is kept. |
| SocketContext.RecipientOrNull | client/src/context/SocketContext.js:114 | A falsy recipient becomes null, and a truthy one is kept. |
| SocketContext.OutgoingSend | client/src/context/SocketContext.js:111-116 | The `message:send` payload carries the content, the room or 'general', the recipient when truthy, and `isPrivate` true exactly when the option was true. |
| SocketContext.OutgoingTyping | client/src/context/SocketContext.js:123-126 | The typing payload carries the room or 'general', and the recipient when truthy. |
| SocketContext.SocketClient.constructor | client/src/context/SocketContext.js:16-21 | The initial state has no socket, is not connected, has empty lists and no error. |
| SocketContext.SocketClient.Attach | client/src/context/SocketContext.js:25-33 | Once a token exists a socket exists. |
| SocketContext.SocketClient.OnConnect | client/src/context/SocketContext.js:35-39 | `connect` sets connected and clears the error. |
| SocketContext.SocketClient.OnDisconnect | client/src/context/SocketContext.js:41-44 | `disconnect` clears connected and nothing else. |
| SocketContext.SocketClient.OnConnectError | client/src/context/SocketContext.js:46-50 | `connect_error` sets 'Connection failed. Please try again.' and clears connected. |
| SocketContext.SocketClient.OnServerError | client/src/context/SocketContext.js:52-55 | A server `error` event sets its message as the error. |
| SocketContext.SocketClient.OnUsersOnline | client/src/context/SocketContext.js:58-60 | `users:online` replaces the online list wholesale. |
| SocketContext.SocketClient.OnUserJoined | client/src/context/SocketContext.js:63-70 | The online list becomes `WithJoined` of the old one and stays duplicate-free. |
| SocketContext.SocketClient.OnUserLeft | client/src/context/SocketContext.js:73-76 | `user:left` removes the user from the online list and the typing list, and changes nothing else. |
| SocketContext.SocketClient.OnMessageReceived | client/src/context/SocketContext.js:79-81 | `message:received` appends at the end and keeps the earlier messages in order. |
| SocketContext.SocketClient.OnUserTyping | client/src/context/SocketContext.js:84-91 | The typing list becomes `WithTyping` of the old one and keeps one entry per user. |
| SocketContext.SocketClient.OnUserStoppedTyping | client/src/context/SocketContext.js:93-95 | The typing list loses every entry of that user. |
| SocketContext.SocketClient.SendMessage | client/src/context/SocketContext.js:105-117 | When connected, exactly one `message:send` with the defaulted payload is emitted. Otherwise 'Not connected to server' is set and nothing is emitted. |
| SocketContext.SocketClient.EmitIfConnected | client/src/context/SocketContext.js:140-155 | An emit happens only with a connected socket. Otherwise nothing happens, silently. |
| SocketContext.SocketClient.StartTyping | client/src/context/SocketContext.js:120-127 | `typing:start` is emitted with the defaulted payload when connected, and nothing otherwise. |
| SocketContext.SocketClient.StopTyping | client/src/context/SocketContext.js:130-137 | `typing:stop` is emitted likewise. |
| SocketContext.SocketClient.JoinRoom | client/src/context/SocketContext.js:140-143 | `room:join` is emitted only when connected. |
| SocketContext.SocketClient.LeaveRoom | client/src/context/SocketContext.js:146-149 | `room:leave` is emitted only when connected. |
| SocketContext.SocketClient.JoinPrivateChat | client/src/context/SocketContext.js:152-155 | `private:join` is emitted only when connected. |
| SocketContext.SocketClient.ClearMessages | client/src/context/SocketContext.js:158-160 | The message list becomes empty. |
| SocketContext.SocketClient.AddMessages | client/src/context/SocketContext.js:163-165 | Loaded history goes in front of the existing messages. |
| SocketContext.SocketClient.ClearError | client/src/context/SocketContext.js:168-170 | The error is cleared. |
| MessageInput.Composer.constructor | client/src/components/MessageInput.js:4-6 | The component mounts empty, not typing, with no timer. |
| MessageInput.Composer.Change | client/src/components/MessageInput.js:14-33 | The text becomes the new value, and typing is on with one timer pending. `onTypingStart` is called exactly when not already typing. One start per burst is kept. |
| MessageInput.Composer.TimerFires | client/src/components/MessageInput.js:29-32 | The timer fires, `isTyping` becomes false, and `onTypingStop` is called once. |
| MessageInput.Composer.Submit | client/src/components/MessageInput.js:35-49 | Blank text changes nothing. Otherwise the trimmed text is sent, then `onTypingStop` is called. The input is cleared, the timer cancelled and typing off. |
| MessageInput.Composer.KeyPress | client/src/components/MessageInput.js:51-56 | Enter without Shift submits: blank text changes nothing, timer included; otherwise the trimmed text is sent, `onTypingStop` called, the input cleared, typing off and the timer cancelled. Any other key, Shift+Enter included, changes nothing. |
| MessageInput.SendDisabled | client/src/components/MessageInput.js:74 | The send button is disabled exactly when the text is whitespace only. |
| MessageInput.AppendStart | client/src/components/MessageInput.js:18-21 | A start made while no burst is open keeps one start per burst and opens a burst. |
| MessageInput.AppendOther | client/src/components/MessageInput.js:29-47 | A stop or a send keeps one start per burst. A stop closes the burst. |
| MessageInput.StopBetweenStarts | client/src/components/MessageInput.js:18-32 | Between any two `onTypingStart` calls there is an `onTypingStop` call. |
| MessageInput.StopTwiceScenario | client/src/components/MessageInput.js:29-47 | Typing, going idle until the timer fires, then submitting calls `onTypingStop` twice with no start in between. |
| ChatPage.SendPayloadShape | client/src/pages/Chat.js:79-85 | With a selection, the server receives a private message to the selected `_id` in room 'general'. Without one, it receives a public 'general' message with a null recipient. |
| ChatPage.TypingAddressedLikeSends | client/src/pages/Chat.js:87-99 | Typing notices carry the same room and recipient as sends in the same conversation. |
| ChatPage.DirectChatDelivery | client/src/pages/Chat.js:79-85 | End to end, a direct-chat message reaches the sender and the selected user's socket when online, and nobody else. |
| ChatPage.GeneralChatDelivery | client/src/pages/Chat.js:79-85 | End to end, a general-room message reaches exactly the members of `general`. |
| ChatPage.VisibleTypers | client/src/pages/Chat.js:106-108 | With a selection, exactly the selected user's typing entries are shown. Without one, the whole list is shown. |
| ChatPage.VisibleTypersAtMostOne | client/src/pages/Chat.js:106-108 | Given the provider's duplicate-free typing list, a direct chat shows at most one typing notice. |
| ChatPage.OneEntryPerTyper | client/src/pages/Chat.js:107 | A duplicate-free typing list has at most one entry per user. |
| ChatPage.Resolve | server/routes/chat.js:7-8 | `/messages/:room` matches one non-empty segment. `/messages/private/:userId` matches `private/` and then one non-empty segment. |
| ChatPage.HistoryUrlRoutes | client/src/pages/Chat.js:33-38 | The page requests `/api/messages/private/<id>` with a selection and `/api/messages/general` without one. These reach the private-thread and room-history controllers respectively. |
| ChatPage.ChatView.constructor | client/src/pages/Chat.js:11-12 | Nothing is selected and nothing is loading. |
| ChatPage.ChatView.HandleSelectUser | client/src/pages/Chat.js:101-103 | The selection becomes the chosen user. |
| ChatPage.ChatView.BeginLoad | client/src/pages/Chat.js:28-38 | History is requested only when connected. Loading sets the spinner, empties the messages and requests the open conversation's URL. |
| ChatPage.ChatView.FinishLoad | client/src/pages/Chat.js:40-51 | A successful response is prepended to what arrived meanwhile, and a failed one adds nothing. The spinner goes away either way. |
| ChatPage.ChatView.HandleSendMessage | client/src/pages/Chat.js:79-85 | The provider emits the conversation's send payload when connected, and reports 'Not connected to server' otherwise. |
| ChatPage.ChatView.HandleTypingStart | client/src/pages/Chat.js:87-92 | `typing:start` is emitted with the conversation's addressing when connected. |
| ChatPage.ChatView.HandleTypingStop | client/src/pages/Chat.js:94-99 | `typing:stop` is emitted with the conversation's addressing when connected. |
| ChatPage.LateHistoryScenario | client/src/pages/Chat.js:28-52 | A live message that arrives while general history loads ends up after the whole history, and the stale list is gone. |

## Left out

- Socket.io transport, Express wiring, JWT authentication of sockets and requests (`socket.user`, `req.user`, `protect`) and `AuthContext.js` (axios, localStorage, tokens): these are I/O. The authenticated user is a parameter.
- Concurrency and async interleaving: each handler runs to completion. An `await` in `connection` or `disconnect` is not interleaved with other events.
- The database: collections are sequences in store order, and a failed query is `None`. `Message.create` is a `StoreOutcome`. `populate` is only its success flag. The User schema, ObjectId casting and index use are not part of this model.
- Mongo driver details beyond those stated. A negative skip is taken to fail the query (500). A negative limit returns that many documents in one batch.
- ChatController.NewestFirst: the order among messages with equal `createdAt` is not stated. MongoDB leaves it unspecified. The model happens to keep store order.
- The `select` projections of `getOnlineUsers`, `getAllUsers` and the `users:online` query: full user records, or their `{_id, username, avatar}` summary, are returned instead.
- The sender's `populate` in the history endpoints: records keep the sender id.
- ChatController.ParseInt: `parseInt` forms other than optional whitespace, sign and decimal digits are not modelled. `Infinity` and numbers beyond 2^53 are also left out; the result is an unbounded integer.
- Query parameters given as arrays, and URL encoding and trailing slashes in route matching.
- Validators.UsernameErrors: lower-cases only ASCII letters before the taken check, where `toLowerCase` also lower-cases other scripts. The two differ only for usernames that already fail the character rule.
- `messageValidation` is modelled, but no route of the repository applies it. The socket handler's own checks are modelled instead.
- JsString.LexLe: compares code points, whereas `Array.prototype.sort` compares UTF-16 code units. The two agree on ids without characters above U+FFFF, such as ObjectId strings.
- Timers: the 2000 ms delay is the `TimerFires` event. The browser's `maxLength` is a precondition of `Composer.Change`.
- React rendering details: effects and re-render timing, stale closures, and the component unmount clean-up.
- Desktop notifications, scrolling, `Header.js`, `Message.js`, `MessageList.js` and `UserList.js`: display only.
- Logging (`console.log` and `console.error`).
- Protocol.SendData and Protocol.TypingData: payload fields are strings or absent. Fields of other JavaScript types are not modelled: a truthy non-string `content` makes `content.trim` throw, so the handler emits 'Failed to send message'. An explicit `null` room is not modelled either (`io.to(null)` reaches nobody), nor is a typing event with no payload at all, whose destructuring throws outside any `try`.
- SocketHandler.SocketServer.Typing: does not restate the registry invariant, because it changes only the log.
