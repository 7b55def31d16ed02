/**
  The server's real-time engine: the `onlineUsers` registry, the room sets of every connected
  socket, and one handler per socket event. Every `emit` the handlers perform is appended to an
  output log as one `Emission`: the set of sockets it reaches and the event it carries.

  Rooms follow socket.io (version 3 on): a socket is placed in the room named by its own id when it
  connects, `io.to(x)` reaches every connected socket whose room set holds `x`, and `io.emit` every
  connected socket. An emit through the socket itself, `socket.to(x)` or `socket.broadcast.emit`,
  excludes every socket in the room named by the emitter's id, which is the emitter alone unless
  another socket has joined a room of that name.
*/
module SocketHandler {
  import opened Common
  import opened JsString
  import opened Protocol
  import opened UserModel
  import MessageModel

  /** A connected socket: the authenticated user attached to it and the rooms it is in. */
  datatype Session = Session(user: UserSummary, rooms: set<Room>)

  /** The value `onlineUsers` maps a user id to. */
  datatype OnlineEntry = OnlineEntry(socketId: SocketId, username: string, avatar: string)

  /** The events the server emits. */
  datatype ServerEvent =
    | UsersOnline(users: seq<UserSummary>)
    | UserJoined(user: UserSummary)
    | UserLeft(who: UserTag)
    | MessageReceived(message: ChatPayload)
    | UserTyping(who: UserTag)
    | UserStoppedTyping(who: UserTag)
    | ErrorEvent(text: string)

  /** One `emit` call: the sockets it reaches and what it carries. */
  datatype Emission = Emission(targets: set<SocketId>, event: ServerEvent)

  /**
    What the Message store did with `Message.create` and the `populate` that follows: the create
    failed (a database error or a recipient id that is not an ObjectId), or it stored the message
    under an id and creation time and the populate succeeded or not.
  */
  datatype StoreOutcome = CreateFailed | Created(id: MessageId, createdAt: int, populated: bool)

  /** What one `message:send` produces: the record written to the store, if any, and the emissions. */
  datatype SendResult = SendResult(stored: Option<MessageModel.MessageRecord>, emissions: seq<Emission>)

  const ContentRequiredError := "Message content is required"
  const SendFailedError := "Failed to send message"

  /** The connected sockets in `room`: the audience of `io.to(room)`. */
  function Members(sessions: map<SocketId, Session>, room: Room): (r: set<SocketId>)
    ensures forall s :: s in r <==> s in sessions && room in sessions[s].rooms
  {
    set s | s in sessions && room in sessions[s].rooms
  }

  /** `s` is connected, in its own room, and no other socket has joined a room of that name. */
  predicate OwnRoomOnly(sessions: map<SocketId, Session>, s: SocketId)
  {
    s in sessions && s in sessions[s].rooms && forall t :: t in sessions && t != s ==> s !in sessions[t].rooms
  }

  /** While its own room is intact, `io.to(socketId)` reaches that socket and no other. */
  lemma {:induction false} MembersOfOwnRoom(sessions: map<SocketId, Session>, s: SocketId)
    requires OwnRoomOnly(sessions, s)
    ensures Members(sessions, s) == {s}
  {
  }

  /** Every connected socket that has received an event satisfying `kind`, over a list of emissions. */
  function Reached(emissions: seq<Emission>, kind: ServerEvent -> bool): (r: set<SocketId>)
    ensures forall s :: s in r <==> exists i :: 0 <= i < |emissions| && kind(emissions[i].event) && s in emissions[i].targets
  {
    if emissions == [] then {}
    else
      var last := emissions[|emissions| - 1];
      var prefix := emissions[..|emissions| - 1];
      var r := Reached(prefix, kind) + (if kind(last.event) then last.targets else {});
      assert forall i :: 0 <= i < |prefix| ==> prefix[i] == emissions[i];
      r
  }

  lemma {:induction false} ReachedAppend(xs: seq<Emission>, ys: seq<Emission>, kind: ServerEvent -> bool)
    ensures Reached(xs + ys, kind) == Reached(xs, kind) + Reached(ys, kind)
  {
    if ys == [] {
      assert xs + ys == xs;
    } else {
      assert (xs + ys)[..|xs + ys| - 1] == xs + ys[..|ys| - 1];
      ReachedAppend(xs, ys[..|ys| - 1], kind);
    }
  }

  lemma {:induction false} ReachedOne(e: Emission, kind: ServerEvent -> bool)
    ensures Reached([e], kind) == if kind(e.event) then e.targets else {}
  {
    assert [e][..0] == [];
  }

  predicate IsDelivery(e: ServerEvent) { e.MessageReceived? }

  predicate IsError(e: ServerEvent) { e.ErrorEvent? }

  predicate IsSnapshot(e: ServerEvent) { e.UsersOnline? }

  predicate IsJoinNotice(e: ServerEvent) { e.UserJoined? }

  predicate IsLeaveNotice(e: ServerEvent) { e.UserLeft? }

  predicate AnyEvent(e: ServerEvent) { true }

  /** The room name `private:join` computes: the two ids sorted and joined with `-`. */
  function PrivateRoomName(a: UserId, b: UserId): (r: Room)
    ensures r == a + "-" + b || r == b + "-" + a
  {
    if LexLe(a, b) then a + "-" + b else b + "-" + a
  }

  /** Both peers of a private chat compute the same room, whichever of them asks. */
  lemma {:induction false} PrivateRoomNameSymmetric(a: UserId, b: UserId)
    ensures PrivateRoomName(a, b) == PrivateRoomName(b, a)
  {
    LexLeTotal(a, b);
    if LexLe(a, b) && LexLe(b, a) {
      LexLeAntisymmetric(a, b);
    }
  }

  predicate DashFree(s: string) { '-' !in s }

  /** Joining two dash-free ids with `-` can be undone: the first dash separates them. */
  lemma {:induction false} SplitAtDash(x: string, y: string, x': string, y': string)
    requires DashFree(x) && DashFree(x')
    requires x + "-" + y == x' + "-" + y'
    ensures x == x' && y == y'
  {
    var s := x + "-" + y;
    assert s[|x|] == '-' && s[|x'|] == '-';
    assert forall k :: 0 <= k < |x| ==> s[k] == x[k] && s[k] != '-';
    assert forall k :: 0 <= k < |x'| ==> s[k] == x'[k] && s[k] != '-';
    assert x == s[..|x|] == x';
    assert y == s[|x| + 1..] == y';
  }

  /** For ids without `-` (such as ObjectId strings) the private room determines the unordered pair of users. */
  lemma {:induction false} PrivateRoomNameInjective(a: UserId, b: UserId, c: UserId, d: UserId)
    requires DashFree(a) && DashFree(b) && DashFree(c) && DashFree(d)
    requires PrivateRoomName(a, b) == PrivateRoomName(c, d)
    ensures (a == c && b == d) || (a == d && b == c)
  {
    var r := PrivateRoomName(a, b);
    if r == a + "-" + b {
      if r == c + "-" + d { SplitAtDash(a, b, c, d); } else { SplitAtDash(a, b, d, c); }
    } else {
      if r == c + "-" + d { SplitAtDash(b, a, c, d); } else { SplitAtDash(b, a, d, c); }
    }
  }

  /** With a `-` inside an id, two different pairs of users can land in the same private room. */
  lemma {:induction false} PrivateRoomNameCollision()
    ensures PrivateRoomName("a-b", "c") == PrivateRoomName("a", "b-c") == "a-b-c"
  {
    assert LexLe("a-b", "c");
    assert LexLe("a", "b-c");
  }

  /** The fields the handler passes to `Message.create`: trimmed content, the room, the recipient of a private message, the flag. */
  function SendInit(data: SendData): MessageModel.MessageInit
    requires data.content.Some?
  {
    var isPrivate := WithDefault(data.isPrivate, false);
    MessageModel.MessageInit(
      Some(Trim(data.content.value)), None, Some(WithDefault(data.room, GeneralRoom)),
      if isPrivate then data.recipientId else None, Some(isPrivate))
  }

  /** The `messageData` emitted for a stored record, with the sender expanded to the socket's user. */
  function PayloadOf(rec: MessageModel.MessageRecord, sender: UserSummary): ServerEvent
  {
    MessageReceived(ChatPayload(rec.id, rec.content, sender, rec.room, rec.isPrivate, rec.createdAt))
  }

  /** The emissions of a stored message: the private branch or the room branch of the handler. */
  function Route(
    online: map<UserId, OnlineEntry>, sessions: map<SocketId, Session>, sid: SocketId,
    data: SendData, payload: ServerEvent): seq<Emission>
  {
    if WithDefault(data.isPrivate, false) && Truthy(data.recipientId) then
      var rid := data.recipientId.value;
      (if rid in online then [Emission(Members(sessions, online[rid].socketId), payload)] else [])
      + [Emission({sid}, payload)]
    else
      [Emission(Members(sessions, WithDefault(data.room, GeneralRoom)), payload)]
  }

  /**
    The record `Message.create` writes for a message of `sender`, given what the store did: none
    when the create fails in the database or on a schema validator.
  */
  function Stored(sender: UserId, data: SendData, outcome: StoreOutcome): Option<MessageModel.MessageRecord>
    requires data.content.Some?
  {
    if outcome.CreateFailed? then None
    else
      match MessageModel.Create(outcome.id, sender, SendInit(data), outcome.createdAt)
      case Err(_) => None
      case Ok(rec) => Some(rec)
  }

  /** The handler of `message:send` from socket `sid`, with the store's behaviour given as `outcome`. */
  function HandleSend(
    online: map<UserId, OnlineEntry>, sessions: map<SocketId, Session>, sid: SocketId,
    data: SendData, outcome: StoreOutcome): SendResult
    requires sid in sessions
  {
    var user := sessions[sid].user;
    if data.content.None? || Trim(data.content.value) == "" then
      SendResult(None, [Emission({sid}, ErrorEvent(ContentRequiredError))])
    else
      var stored := Stored(user.id, data, outcome);
      if stored.Some? && outcome.populated then
        SendResult(stored, Route(online, sessions, sid, data, PayloadOf(stored.value, user)))
      else
        SendResult(stored, [Emission({sid}, ErrorEvent(SendFailedError))])
  }

  /** The content passes the handler's own check and the schema, and the store and populate succeed. */
  predicate SendSucceeds(data: SendData, outcome: StoreOutcome)
  {
    && data.content.Some? && !IsBlank(data.content.value)
    && Utf16Length(Trim(data.content.value)) <= MessageModel.MaxContentLength
    && outcome.Created? && outcome.populated
  }

  /** Non-blank content within the limit passes every schema validator once the handler has trimmed it. */
  lemma {:induction false} SendInitValid(data: SendData)
    requires data.content.Some? && !IsBlank(data.content.value)
    requires Utf16Length(Trim(data.content.value)) <= MessageModel.MaxContentLength
    ensures Trim(data.content.value) != ""
    ensures MessageModel.SchemaErrors(SendInit(data)) == {}
  {
    var c := data.content.value;
    TrimEmptyIffBlank(c);
    TrimIdempotent(c);
    TrimEmptyIffBlank(Trim(c));
  }

  /** Content whose trimmed form exceeds the limit trips the schema's `maxlength` validator. */
  lemma {:induction false} SendInitTooLong(data: SendData)
    requires data.content.Some?
    requires Utf16Length(Trim(data.content.value)) > MessageModel.MaxContentLength
    ensures MessageModel.ContentTooLong in MessageModel.SchemaErrors(SendInit(data))
  {
    var init := SendInit(data);
    TrimIdempotent(data.content.value);
    assert Trim(init.content.value) == Trim(data.content.value);
  }

  /** Content whose trimmed form exceeds the limit fails the schema, so nothing is stored. */
  lemma {:induction false} StoredTooLong(sender: UserId, data: SendData, outcome: StoreOutcome)
    requires data.content.Some? && outcome.Created?
    requires Utf16Length(Trim(data.content.value)) > MessageModel.MaxContentLength
    ensures Stored(sender, data, outcome).None?
  {
    SendInitTooLong(data);
    assert MessageModel.Create(outcome.id, sender, SendInit(data), outcome.createdAt).Err?;
  }

  /** Past the blank check, the store keeps a record exactly when the create succeeds and the trimmed content is within the limit. */
  lemma {:induction false} StoredWhen(sender: UserId, data: SendData, outcome: StoreOutcome)
    requires data.content.Some? && !IsBlank(data.content.value)
    ensures Stored(sender, data, outcome).Some?
      <==> outcome.Created? && Utf16Length(Trim(data.content.value)) <= MessageModel.MaxContentLength
  {
    if outcome.Created? {
      if Utf16Length(Trim(data.content.value)) <= MessageModel.MaxContentLength {
        SendInitValid(data);
      } else {
        StoredTooLong(sender, data, outcome);
      }
    }
  }

  /**
    The stored record holds the trimmed content, with `room` defaulting to general, `isPrivate` to
    false and `recipient` set only for a private message.
  */
  lemma {:induction false} StoredRecordFields(sender: UserId, data: SendData, outcome: StoreOutcome)
    requires data.content.Some?
    requires Stored(sender, data, outcome).Some?
    ensures var rec := Stored(sender, data, outcome).value;
      && MessageModel.ValidRecord(rec)
      && rec.id == outcome.id && rec.sender == sender && rec.createdAt == outcome.createdAt
      && rec.content == Trim(data.content.value)
      && rec.kind == MessageModel.Text
      && rec.room == WithDefault(data.room, GeneralRoom)
      && rec.isPrivate == WithDefault(data.isPrivate, false)
      && rec.recipient == (if WithDefault(data.isPrivate, false) then data.recipientId else None)
      && rec.readBy == []
  {
    TrimIdempotent(data.content.value);
  }

  /** On the success path the handler stores the record and emits it along `Route`. */
  lemma {:induction false} SendSuccessShape(
    online: map<UserId, OnlineEntry>, sessions: map<SocketId, Session>, sid: SocketId, data: SendData, outcome: StoreOutcome)
    requires sid in sessions
    requires SendSucceeds(data, outcome)
    ensures Stored(sessions[sid].user.id, data, outcome).Some?
    ensures var stored := Stored(sessions[sid].user.id, data, outcome);
      HandleSend(online, sessions, sid, data, outcome)
        == SendResult(stored, Route(online, sessions, sid, data, PayloadOf(stored.value, sessions[sid].user)))
  {
    var c := data.content.value;
    TrimEmptyIffBlank(c);
    assert Trim(c) != "";
    StoredWhen(sessions[sid].user.id, data, outcome);
    assert Stored(sessions[sid].user.id, data, outcome).Some?;
  }

  /** Missing or whitespace-only content is refused before the store is called, and only the sender hears of it. */
  lemma {:induction false} SendRejectsBlankContent(
    online: map<UserId, OnlineEntry>, sessions: map<SocketId, Session>, sid: SocketId, data: SendData, outcome: StoreOutcome)
    requires sid in sessions
    requires data.content.None? || IsBlank(data.content.value)
    ensures HandleSend(online, sessions, sid, data, outcome) == SendResult(None, [Emission({sid}, ErrorEvent(ContentRequiredError))])
  {
    if data.content.Some? { TrimEmptyIffBlank(data.content.value); }
  }

  /**
    Past the blank check, any failure of the store, of the schema (content over 2000 UTF-16 units)
    or of `populate` sends 'Failed to send message' to the sender alone and delivers nothing; only a
    failed populate leaves a stored record behind.
  */
  lemma {:induction false} SendFailureScopedToSender(
    online: map<UserId, OnlineEntry>, sessions: map<SocketId, Session>, sid: SocketId, data: SendData, outcome: StoreOutcome)
    requires sid in sessions
    requires data.content.Some? && !IsBlank(data.content.value)
    requires !SendSucceeds(data, outcome)
    ensures HandleSend(online, sessions, sid, data, outcome).emissions == [Emission({sid}, ErrorEvent(SendFailedError))]
    ensures HandleSend(online, sessions, sid, data, outcome).stored.Some? ==> outcome.Created? && !outcome.populated
  {
    TrimEmptyIffBlank(data.content.value);
    StoredWhen(sessions[sid].user.id, data, outcome);
  }

  /** A successful send stores a valid record of the sender's trimmed content and produces no error event. */
  lemma {:induction false} SendStoresTrimmedMessage(
    online: map<UserId, OnlineEntry>, sessions: map<SocketId, Session>, sid: SocketId, data: SendData, outcome: StoreOutcome)
    requires sid in sessions
    requires SendSucceeds(data, outcome)
    ensures var r := HandleSend(online, sessions, sid, data, outcome);
      && r.stored.Some?
      && MessageModel.ValidRecord(r.stored.value)
      && r.stored.value.sender == sessions[sid].user.id
      && r.stored.value.content == Trim(data.content.value)
      && Reached(r.emissions, IsError) == {}
  {
    SendSuccessShape(online, sessions, sid, data, outcome);
    StoredRecordFields(sessions[sid].user.id, data, outcome);
    RouteDelivers(online, sessions, sid, data, PayloadOf(Stored(sessions[sid].user.id, data, outcome).value, sessions[sid].user));
  }

  /**
    `Route` delivers only the payload. Its private branch reaches the sender's socket always, plus the
    recipient's registered socket room when the recipient is online; its room branch reaches the members of the room.
  */
  lemma {:induction false} RouteDelivers(
    online: map<UserId, OnlineEntry>, sessions: map<SocketId, Session>, sid: SocketId, data: SendData, payload: ServerEvent)
    requires payload.MessageReceived?
    ensures Reached(Route(online, sessions, sid, data, payload), IsError) == {}
    ensures WithDefault(data.isPrivate, false) && Truthy(data.recipientId) ==>
      Reached(Route(online, sessions, sid, data, payload), IsDelivery)
        == (if data.recipientId.value in online then Members(sessions, online[data.recipientId.value].socketId) else {}) + {sid}
    ensures !(WithDefault(data.isPrivate, false) && Truthy(data.recipientId)) ==>
      Route(online, sessions, sid, data, payload) == [Emission(Members(sessions, WithDefault(data.room, GeneralRoom)), payload)]
  {
    var es := Route(online, sessions, sid, data, payload);
    if WithDefault(data.isPrivate, false) && Truthy(data.recipientId) {
      var rid := data.recipientId.value;
      var first := if rid in online then [Emission(Members(sessions, online[rid].socketId), payload)] else [];
      assert es == first + [Emission({sid}, payload)];
      ReachedAppend(first, [Emission({sid}, payload)], IsDelivery);
      ReachedAppend(first, [Emission({sid}, payload)], IsError);
      ReachedOne(Emission({sid}, payload), IsDelivery);
      ReachedOne(Emission({sid}, payload), IsError);
      if rid in online {
        ReachedOne(first[0], IsDelivery);
        ReachedOne(first[0], IsError);
      }
    } else {
      ReachedOne(es[0], IsError);
    }
  }

  /**
    A successful private send with a recipient id reaches the sender's socket always, plus the
    recipient's registered socket room when the recipient is online; an offline recipient is no error.
  */
  lemma {:induction false} PrivateSendDelivery(
    online: map<UserId, OnlineEntry>, sessions: map<SocketId, Session>, sid: SocketId, data: SendData, outcome: StoreOutcome)
    requires sid in sessions
    requires SendSucceeds(data, outcome)
    requires WithDefault(data.isPrivate, false) && Truthy(data.recipientId)
    ensures var r := HandleSend(online, sessions, sid, data, outcome);
      && Reached(r.emissions, IsDelivery)
         == (if data.recipientId.value in online then Members(sessions, online[data.recipientId.value].socketId) else {}) + {sid}
      && Reached(r.emissions, IsError) == {}
  {
    SendSuccessShape(online, sessions, sid, data, outcome);
    RouteDelivers(online, sessions, sid, data, PayloadOf(Stored(sessions[sid].user.id, data, outcome).value, sessions[sid].user));
  }

  /** Anything else, a private flag without a recipient included, goes to every member of the room (general by default). */
  lemma {:induction false} PublicSendDelivery(
    online: map<UserId, OnlineEntry>, sessions: map<SocketId, Session>, sid: SocketId, data: SendData, outcome: StoreOutcome)
    requires sid in sessions
    requires SendSucceeds(data, outcome)
    requires !(WithDefault(data.isPrivate, false) && Truthy(data.recipientId))
    ensures var r := HandleSend(online, sessions, sid, data, outcome);
      && |r.emissions| == 1
      && r.emissions[0].targets == Members(sessions, WithDefault(data.room, GeneralRoom))
      && r.emissions[0].event.MessageReceived?
  {
    SendSuccessShape(online, sessions, sid, data, outcome);
  }

  /**
    A private message to oneself is emitted twice to the sender's socket: once through the
    registry lookup and once as the sender's echo. Nothing de-duplicates the two.
  */
  lemma {:induction false} PrivateSendToSelfNotDeduplicated(
    online: map<UserId, OnlineEntry>, sessions: map<SocketId, Session>, sid: SocketId, data: SendData, outcome: StoreOutcome)
    requires sid in sessions
    requires SendSucceeds(data, outcome)
    requires WithDefault(data.isPrivate, false) && data.recipientId == Some(sessions[sid].user.id) && sessions[sid].user.id != ""
    requires sessions[sid].user.id in online && online[sessions[sid].user.id].socketId == sid && OwnRoomOnly(sessions, sid)
    ensures var r := HandleSend(online, sessions, sid, data, outcome);
      |r.emissions| == 2 && r.emissions[0] == r.emissions[1] && r.emissions[0].targets == {sid}
  {
    SendSuccessShape(online, sessions, sid, data, outcome);
    MembersOfOwnRoom(sessions, sid);
  }

  /** The handler of `typing:start` (`starting`) or `typing:stop` from socket `sid`. Nothing is stored. */
  function HandleTyping(
    online: map<UserId, OnlineEntry>, sessions: map<SocketId, Session>, sid: SocketId,
    data: TypingData, starting: bool): seq<Emission>
    requires sid in sessions
  {
    var user := sessions[sid].user;
    var notice := UserTag(user.id, user.username);
    var event := if starting then UserTyping(notice) else UserStoppedTyping(notice);
    if Truthy(data.recipientId) then
      var rid := data.recipientId.value;
      if rid in online then [Emission(Members(sessions, online[rid].socketId), event)] else []
    else
      [Emission(Members(sessions, WithDefault(data.room, GeneralRoom)) - Members(sessions, sid), event)]
  }

  /**
    A typing event carries the sender's `{userId, username}`. With a recipient id it reaches only the
    recipient's registered socket room, and nobody when the recipient is offline; without one it
    reaches the room's members except those in the room named by the sender's socket id.
  */
  lemma {:induction false} TypingAddressing(
    online: map<UserId, OnlineEntry>, sessions: map<SocketId, Session>, sid: SocketId, data: TypingData, starting: bool)
    requires sid in sessions
    ensures var es := HandleTyping(online, sessions, sid, data, starting);
      var notice := UserTag(sessions[sid].user.id, sessions[sid].user.username);
      && (forall i :: 0 <= i < |es| ==> es[i].event == (if starting then UserTyping(notice) else UserStoppedTyping(notice)))
      && (Truthy(data.recipientId) && data.recipientId.value in online ==>
            Reached(es, AnyEvent) == Members(sessions, online[data.recipientId.value].socketId))
      && (Truthy(data.recipientId) && data.recipientId.value !in online ==> es == [])
      && (!Truthy(data.recipientId) ==>
            Reached(es, AnyEvent) == Members(sessions, WithDefault(data.room, GeneralRoom)) - Members(sessions, sid))
  {
  }

  /**
    Typing never reaches the typist's own socket unless it is itself the recipient's registered socket
    or has joined the room named by that socket's id, or, without a recipient, has left its own room.
  */
  lemma {:induction false} TypingExcludesSender(
    online: map<UserId, OnlineEntry>, sessions: map<SocketId, Session>, sid: SocketId, data: TypingData, starting: bool)
    requires sid in sessions
    requires Truthy(data.recipientId) && data.recipientId.value in online ==>
      online[data.recipientId.value].socketId !in sessions[sid].rooms
    requires !Truthy(data.recipientId) ==> sid in sessions[sid].rooms
    ensures sid !in Reached(HandleTyping(online, sessions, sid, data, starting), AnyEvent)
  {
  }

  /**
    A socket that has left the room named by its own id (`room:leave` with that id) hears its own
    typing in a room it is a member of: the exclusion goes by that room, not by the socket.
  */
  lemma {:induction false} TypingEchoAfterLeavingOwnRoom(
    online: map<UserId, OnlineEntry>, sessions: map<SocketId, Session>, sid: SocketId, data: TypingData, starting: bool)
    requires sid in sessions && !Truthy(data.recipientId)
    requires sid !in sessions[sid].rooms && WithDefault(data.room, GeneralRoom) in sessions[sid].rooms
    ensures sid in Reached(HandleTyping(online, sessions, sid, data, starting), AnyEvent)
  {
    TypingAddressing(online, sessions, sid, data, starting);
  }

  /**
    The `users:online` broadcast (`io.emit`, every connected socket) and the `user:joined` notice
    (`socket.broadcast.emit`) a connection of socket `sid` produces, given the sockets after it joined.
  */
  function ConnectEmissions(sessions: map<SocketId, Session>, sid: SocketId, user: UserSummary, users: seq<UserRecord>): seq<Emission>
  {
    [Emission(sessions.Keys, UsersOnline(OnlineSnapshot(users))),
     Emission(sessions.Keys - Members(sessions, sid), UserJoined(user))]
  }

  /**
    The `users:online` broadcast and the `user:left` notice a disconnection of socket `sid` produces,
    given the sockets that remain once it is gone.
  */
  function DisconnectEmissions(sessions: map<SocketId, Session>, sid: SocketId, user: UserSummary, users: seq<UserRecord>): seq<Emission>
  {
    [Emission(sessions.Keys, UsersOnline(OnlineSnapshot(users))),
     Emission(sessions.Keys - Members(sessions, sid), UserLeft(UserTag(user.id, user.username)))]
  }

  /**
    On connect, the fresh snapshot reaches every socket, the newcomer included, and lists the newcomer
    when it has a User document. `user:joined` reaches every socket outside the room named by the
    newcomer's id, so never the newcomer; while no other socket has joined that room, every socket but
    the newcomer's.
  */
  lemma {:induction false} ConnectPresence(sessions: map<SocketId, Session>, sid: SocketId, user: UserSummary, users: seq<UserRecord>)
    requires sid in sessions && sid in sessions[sid].rooms
    ensures var es := ConnectEmissions(sessions, sid, user, MarkUser(users, user.id, true, None));
      && Reached(es, IsSnapshot) == sessions.Keys
      && Reached(es, IsJoinNotice) == sessions.Keys - Members(sessions, sid)
      && sid !in Reached(es, IsJoinNotice)
      && (OwnRoomOnly(sessions, sid) ==> Reached(es, IsJoinNotice) == sessions.Keys - {sid})
      && (forall i :: 0 <= i < |users| && users[i].id == user.id ==> Summary(users[i]) in es[0].event.users)
  {
    var es := ConnectEmissions(sessions, sid, user, MarkUser(users, user.id, true, None));
    if OwnRoomOnly(sessions, sid) {
      MembersOfOwnRoom(sessions, sid);
    }
    assert es == [es[0]] + [es[1]];
    ReachedAppend([es[0]], [es[1]], IsSnapshot);
    ReachedAppend([es[0]], [es[1]], IsJoinNotice);
    ReachedOne(es[0], IsSnapshot);
    ReachedOne(es[1], IsSnapshot);
    ReachedOne(es[0], IsJoinNotice);
    ReachedOne(es[1], IsJoinNotice);
    MarkUserSnapshot(users, user.id, true, None);
  }

  /**
    On disconnect the leaving socket is already gone: the snapshot reaches every remaining socket and
    has no entry for the leaving user; `user:left` reaches every remaining socket outside the room named
    by the leaving socket's id, which is every remaining socket when none has joined that room.
  */
  lemma {:induction false} DisconnectPresence(sessions: map<SocketId, Session>, sid: SocketId, user: UserSummary, users: seq<UserRecord>, now: int)
    requires sid !in sessions
    ensures var es := DisconnectEmissions(sessions, sid, user, MarkUser(users, user.id, false, Some(now)));
      && Reached(es, IsSnapshot) == sessions.Keys
      && Reached(es, IsLeaveNotice) == sessions.Keys - Members(sessions, sid)
      && ((forall t :: t in sessions ==> sid !in sessions[t].rooms) ==> Reached(es, IsLeaveNotice) == sessions.Keys)
      && (forall j :: 0 <= j < |es[0].event.users| ==> es[0].event.users[j].id != user.id)
  {
    var es := DisconnectEmissions(sessions, sid, user, MarkUser(users, user.id, false, Some(now)));
    assert es == [es[0]] + [es[1]];
    ReachedAppend([es[0]], [es[1]], IsSnapshot);
    ReachedAppend([es[0]], [es[1]], IsLeaveNotice);
    ReachedOne(es[0], IsSnapshot);
    ReachedOne(es[1], IsSnapshot);
    ReachedOne(es[0], IsLeaveNotice);
    ReachedOne(es[1], IsLeaveNotice);
    MarkUserSnapshot(users, user.id, false, Some(now));
  }

  /**
    The socket server: the module-level `onlineUsers` map, the connected sockets with their rooms,
    the User and Message collections, and the log of everything emitted.
  */
  class SocketServer {
    var onlineUsers: map<UserId, OnlineEntry>
    var sessions: map<SocketId, Session>
    var users: seq<UserRecord>
    var messages: seq<MessageModel.MessageRecord>
    var log: seq<Emission>

    /** Every registry entry points at a connected socket of that same user. */
    ghost predicate Valid()
      reads this
    {
      forall u :: u in onlineUsers ==>
        onlineUsers[u].socketId in sessions && sessions[onlineUsers[u].socketId].user.id == u
    }

    constructor (users: seq<UserRecord>, messages: seq<MessageModel.MessageRecord>)
      ensures Valid()
      ensures onlineUsers == map[] && sessions == map[] && log == []
      ensures this.users == users && this.messages == messages
    {
      onlineUsers := map[];
      sessions := map[];
      this.users := users;
      this.messages := messages;
      log := [];
    }

    /**
      `connection`: socket.io has placed the new socket in its own room; the handler marks the user
      online in the User collection, registers this socket for the user (replacing any earlier one),
      joins `general` and announces the new presence.
    */
    method Connect(sid: SocketId, user: UserSummary)
      requires Valid() && sid !in sessions
      modifies this`users, this`onlineUsers, this`sessions, this`log
      ensures Valid()
      ensures users == MarkUser(old(users), user.id, true, None)
      ensures onlineUsers == old(onlineUsers)[user.id := OnlineEntry(sid, user.username, user.avatar)]
      ensures sessions == old(sessions)[sid := Session(user, {sid, GeneralRoom})]
      ensures log == old(log) + ConnectEmissions(sessions, sid, user, users)
    {
      users := MarkUser(users, user.id, true, None);
      onlineUsers := onlineUsers[user.id := OnlineEntry(sid, user.username, user.avatar)];
      sessions := sessions[sid := Session(user, {sid, GeneralRoom})];
      log := log + ConnectEmissions(sessions, sid, user, users);
    }

    /**
      `disconnect`: socket.io has already dropped the socket and its rooms; the handler marks the user
      offline with a last-seen time and deletes the user's registry entry, whichever socket it names.
    */
    method Disconnect(sid: SocketId, now: int)
      requires Valid() && sid in sessions
      modifies this`users, this`onlineUsers, this`sessions, this`log
      ensures Valid()
      ensures var user := old(sessions)[sid].user;
        && sessions == old(sessions) - {sid}
        && users == MarkUser(old(users), user.id, false, Some(now))
        && onlineUsers == old(onlineUsers) - {user.id}
        && log == old(log) + DisconnectEmissions(sessions, sid, user, users)
    {
      var user := sessions[sid].user;
      sessions := sessions - {sid};
      users := MarkUser(users, user.id, false, Some(now));
      onlineUsers := onlineUsers - {user.id};
      log := log + DisconnectEmissions(sessions, sid, user, users);
    }

    /** `message:send`: appends the stored record, if any, to the Message collection and the emissions to the log. */
    method Send(sid: SocketId, data: SendData, outcome: StoreOutcome)
      requires Valid() && sid in sessions
      modifies this`messages, this`log
      ensures Valid()
      ensures var r := HandleSend(onlineUsers, sessions, sid, data, outcome);
        && messages == old(messages) + (if r.stored.Some? then [r.stored.value] else [])
        && log == old(log) + r.emissions
    {
      var r := HandleSend(onlineUsers, sessions, sid, data, outcome);
      messages := messages + (if r.stored.Some? then [r.stored.value] else []);
      log := log + r.emissions;
    }

    /** `typing:start` / `typing:stop`: only the log changes. */
    method Typing(sid: SocketId, data: TypingData, starting: bool)
      requires Valid() && sid in sessions
      modifies this`log
      ensures log == old(log) + HandleTyping(onlineUsers, sessions, sid, data, starting)
    {
      log := log + HandleTyping(onlineUsers, sessions, sid, data, starting);
    }

    /** `room:join`: adds the room to this socket's set. */
    method JoinRoom(sid: SocketId, room: Room)
      requires Valid() && sid in sessions
      modifies this`sessions
      ensures Valid()
      ensures sessions == old(sessions)[sid := old(sessions)[sid].(rooms := old(sessions)[sid].rooms + {room})]
    {
      sessions := sessions[sid := sessions[sid].(rooms := sessions[sid].rooms + {room})];
    }

    /** `room:leave`: removes the room from this socket's set. */
    method LeaveRoom(sid: SocketId, room: Room)
      requires Valid() && sid in sessions
      modifies this`sessions
      ensures Valid()
      ensures sessions == old(sessions)[sid := old(sessions)[sid].(rooms := old(sessions)[sid].rooms - {room})]
    {
      sessions := sessions[sid := sessions[sid].(rooms := sessions[sid].rooms - {room})];
    }

    /** `private:join`: joins the room named by the sorted pair of the socket's user id and `recipientId`. */
    method PrivateJoin(sid: SocketId, recipientId: UserId)
      requires Valid() && sid in sessions
      modifies this`sessions
      ensures Valid()
      ensures var room := PrivateRoomName(old(sessions)[sid].user.id, recipientId);
        sessions == old(sessions)[sid := old(sessions)[sid].(rooms := old(sessions)[sid].rooms + {room})]
    {
      JoinRoom(sid, PrivateRoomName(sessions[sid].user.id, recipientId));
    }
  }

  /**
    Two tabs of one user: the second connection replaces the first in the registry, and closing the
    first tab deletes the user's entry although the second tab is still connected.
  */
  method SecondTabScenario(alice: UserSummary)
  {
    var server := new SocketServer([], []);
    server.Connect("tab1", alice);
    server.Connect("tab2", alice);
    assert server.onlineUsers[alice.id].socketId == "tab2";
    server.Disconnect("tab1", 0);
    assert "tab2" in server.sessions;
    assert alice.id !in server.onlineUsers;
  }
}
