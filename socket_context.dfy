/**
  The browser side of the socket connection: the provider's state (the socket, the `connected` flag,
  the online list, the message list, the typing list and the error), the updaters it applies to each
  incoming event, and the guarded emits it offers to the pages. Everything the client emits is
  appended to `outbox`. The message type `M` is left open: the provider stores messages without
  looking inside them.
*/
module SocketContext {
  import opened Common
  import opened Protocol

  const NotConnectedError := "Not connected to server"
  const ConnectionFailedError := "Connection failed. Please try again."

  /** What the client emits. */
  datatype ClientEvent =
    | MessageSend(data: SendData)
    | TypingStart(typing: TypingData)
    | TypingStop(typing: TypingData)
    | RoomJoin(room: Room)
    | RoomLeave(room: Room)
    | PrivateJoin(recipientId: UserId)

  /** The `options` object of `sendMessage`, `startTyping` and `stopTyping`; `None` is an absent or null field. */
  datatype Options = Options(room: Option<Room>, recipientId: Option<UserId>, isPrivate: Option<bool>)

  /** No two entries of the online list share an `_id`. */
  predicate DistinctIds(users: seq<UserSummary>)
  {
    forall i, j :: 0 <= i < j < |users| ==> users[i].id != users[j].id
  }

  /** No two entries of the typing list share a `userId`. */
  predicate DistinctTypers(typers: seq<UserTag>)
  {
    forall i, j :: 0 <= i < j < |typers| ==> typers[i].userId != typers[j].userId
  }

  predicate Listed(users: seq<UserSummary>, id: UserId)
  {
    exists i :: 0 <= i < |users| && users[i].id == id
  }

  predicate Typing(typers: seq<UserTag>, id: UserId)
  {
    exists i :: 0 <= i < |typers| && typers[i].userId == id
  }

  /** The `user:joined` updater: appends the newcomer unless an entry already has its id. */
  function WithJoined(prev: seq<UserSummary>, u: UserSummary): (r: seq<UserSummary>)
    ensures Listed(prev, u.id) ==> r == prev
    ensures !Listed(prev, u.id) ==> r == prev + [u]
  {
    if Listed(prev, u.id) then prev else prev + [u]
  }

  /** The `user:left` updater of the online list: drops every entry with that id, keeping the rest in order. */
  function WithoutUser(prev: seq<UserSummary>, id: UserId): (r: seq<UserSummary>)
    ensures !Listed(r, id)
    ensures forall i :: 0 <= i < |prev| && prev[i].id != id ==> prev[i] in r
    ensures forall i :: 0 <= i < |r| ==> r[i] in prev
  {
    Filter(prev, (u: UserSummary) => u.id != id)
  }

  /** The `user:typing` updater: appends the entry unless that user is already listed as typing. */
  function WithTyping(prev: seq<UserTag>, t: UserTag): (r: seq<UserTag>)
    ensures Typing(prev, t.userId) ==> r == prev
    ensures !Typing(prev, t.userId) ==> r == prev + [t]
  {
    if Typing(prev, t.userId) then prev else prev + [t]
  }

  /** The `user:stopped-typing` updater (and the typing half of `user:left`): drops every entry of that user. */
  function WithoutTyping(prev: seq<UserTag>, id: UserId): (r: seq<UserTag>)
    ensures !Typing(r, id)
    ensures forall i :: 0 <= i < |prev| && prev[i].userId != id ==> prev[i] in r
    ensures forall i :: 0 <= i < |r| ==> r[i] in prev
  {
    Filter(prev, (t: UserTag) => t.userId != id)
  }

  /** A join keeps the online list free of duplicate ids, and lists the newcomer. */
  lemma {:induction false} JoinedKeepsIdsDistinct(prev: seq<UserSummary>, u: UserSummary)
    requires DistinctIds(prev)
    ensures DistinctIds(WithJoined(prev, u))
    ensures Listed(WithJoined(prev, u), u.id)
  {
    if !Listed(prev, u.id) {
      assert WithJoined(prev, u)[|prev|] == u;
    }
  }

  /** Receiving the same `user:joined` twice changes nothing the second time. */
  lemma {:induction false} JoinedIdempotent(prev: seq<UserSummary>, u: UserSummary)
    ensures WithJoined(WithJoined(prev, u), u) == WithJoined(prev, u)
  {
    if !Listed(prev, u.id) {
      assert WithJoined(prev, u)[|prev|] == u;
    }
  }

  /** Dropping entries never creates a duplicate id. */
  lemma {:induction false} FilterKeepsIdsDistinct(s: seq<UserSummary>, keep: UserSummary -> bool)
    requires DistinctIds(s)
    ensures DistinctIds(Filter(s, keep))
  {
    if s != [] {
      FilterKeepsIdsDistinct(s[1..], keep);
      var rest := Filter(s[1..], keep);
      forall k | 0 <= k < |rest| ensures rest[k].id != s[0].id {
        var j :| 0 <= j < |s[1..]| && s[1..][j] == rest[k];
        assert s[j + 1] == rest[k];
      }
    }
  }

  /** Dropping entries never creates a duplicate typer. */
  lemma {:induction false} FilterKeepsTypersDistinct(s: seq<UserTag>, keep: UserTag -> bool)
    requires DistinctTypers(s)
    ensures DistinctTypers(Filter(s, keep))
  {
    if s != [] {
      FilterKeepsTypersDistinct(s[1..], keep);
      var rest := Filter(s[1..], keep);
      forall k | 0 <= k < |rest| ensures rest[k].userId != s[0].userId {
        var j :| 0 <= j < |s[1..]| && s[1..][j] == rest[k];
        assert s[j + 1] == rest[k];
      }
    }
  }

  /** A leave changes nothing when the user is not listed, and a second identical leave changes nothing. */
  lemma {:induction false} LeaveIdempotent(prev: seq<UserSummary>, id: UserId)
    ensures !Listed(prev, id) ==> WithoutUser(prev, id) == prev
    ensures WithoutUser(WithoutUser(prev, id), id) == WithoutUser(prev, id)
  {
    FilterIdempotent(prev, (u: UserSummary) => u.id != id);
    if !Listed(prev, id) {
      FilterKeepsAll(prev, (u: UserSummary) => u.id != id);
    }
  }

  /** `options.room || 'general'`. */
  function RoomOrGeneral(room: Option<Room>): (r: Room)
    ensures Truthy(room) ==> r == room.value
    ensures !Truthy(room) ==> r == GeneralRoom
  {
    if Truthy(room) then room.value else GeneralRoom
  }

  /** `options.recipientId || null`: the empty string becomes null as well. */
  function RecipientOrNull(id: Option<UserId>): (r: Option<UserId>)
    ensures r == None || (Truthy(id) && r == id)
    ensures Truthy(id) ==> r == id
  {
    if Truthy(id) then id else None
  }

  /**
    The `message:send` body `sendMessage` builds: room, recipient and privacy always present, so the
    server's own destructuring defaults never apply, and a truthy recipient reaches it unchanged.
  */
  function OutgoingSend(content: string, opts: Options): (d: SendData)
    ensures d.content == Some(content)
    ensures d.room == Some(RoomOrGeneral(opts.room)) && WithDefault(d.room, GeneralRoom) == RoomOrGeneral(opts.room)
    ensures d.isPrivate.Some? && (WithDefault(d.isPrivate, false) <==> opts.isPrivate == Some(true))
    ensures Truthy(d.recipientId) <==> Truthy(opts.recipientId)
  {
    SendData(Some(content), Some(RoomOrGeneral(opts.room)), RecipientOrNull(opts.recipientId), Some(opts.isPrivate == Some(true)))
  }

  /** The `typing:start` / `typing:stop` body. */
  function OutgoingTyping(opts: Options): (d: TypingData)
    ensures d.room == Some(RoomOrGeneral(opts.room))
    ensures Truthy(d.recipientId) <==> Truthy(opts.recipientId)
  {
    TypingData(Some(RoomOrGeneral(opts.room)), RecipientOrNull(opts.recipientId))
  }

  /** The provider's state. */
  class SocketClient<M> {
    var hasSocket: bool
    var connected: bool
    var onlineUsers: seq<UserSummary>
    var messages: seq<M>
    var typingUsers: seq<UserTag>
    var error: Option<string>
    var outbox: seq<ClientEvent>

    /** The typing list never holds two entries of one user. */
    ghost predicate Valid()
      reads this
    {
      DistinctTypers(typingUsers)
    }

    /** The provider before any token: no socket, not connected, empty lists, no error. */
    constructor ()
      ensures Valid()
      ensures !hasSocket && !connected && onlineUsers == [] && messages == [] && typingUsers == []
      ensures error == None && outbox == []
    {
      hasSocket := false;
      connected := false;
      onlineUsers := [];
      messages := [];
      typingUsers := [];
      error := None;
      outbox := [];
    }

    /** The effect that runs once a token exists: the socket is created (not yet connected). */
    method Attach()
      modifies this`hasSocket
      ensures hasSocket
    {
      hasSocket := true;
    }

    /** `connect`: connected, error cleared. */
    method OnConnect()
      modifies this`connected, this`error
      ensures connected && error == None
    {
      connected := true;
      error := None;
    }

    /** `disconnect`: no longer connected; nothing else changes. */
    method OnDisconnect()
      modifies this`connected
      ensures !connected
    {
      connected := false;
    }

    /** `connect_error`: the connection-failed message, not connected. */
    method OnConnectError()
      modifies this`connected, this`error
      ensures !connected && error == Some(ConnectionFailedError)
    {
      error := Some(ConnectionFailedError);
      connected := false;
    }

    /** `error` from the server: its message becomes the error. */
    method OnServerError(text: string)
      modifies this`error
      ensures error == Some(text)
    {
      error := Some(text);
    }

    /** `users:online`: the snapshot replaces the online list wholesale. */
    method OnUsersOnline(users: seq<UserSummary>)
      modifies this`onlineUsers
      ensures onlineUsers == users
    {
      onlineUsers := users;
    }

    /** `user:joined`. */
    method OnUserJoined(u: UserSummary)
      modifies this`onlineUsers
      ensures onlineUsers == WithJoined(old(onlineUsers), u)
      ensures DistinctIds(old(onlineUsers)) ==> DistinctIds(onlineUsers)
    {
      if DistinctIds(onlineUsers) {
        JoinedKeepsIdsDistinct(onlineUsers, u);
      }
      onlineUsers := WithJoined(onlineUsers, u);
    }

    /** `user:left`: the user leaves both the online list and the typing list; nothing else changes. */
    method OnUserLeft(who: UserTag)
      requires Valid()
      modifies this`onlineUsers, this`typingUsers
      ensures Valid()
      ensures onlineUsers == WithoutUser(old(onlineUsers), who.userId)
      ensures typingUsers == WithoutTyping(old(typingUsers), who.userId)
      ensures DistinctIds(old(onlineUsers)) ==> DistinctIds(onlineUsers)
    {
      if DistinctIds(onlineUsers) {
        FilterKeepsIdsDistinct(onlineUsers, (u: UserSummary) => u.id != who.userId);
      }
      FilterKeepsTypersDistinct(typingUsers, (t: UserTag) => t.userId != who.userId);
      onlineUsers := WithoutUser(onlineUsers, who.userId);
      typingUsers := WithoutTyping(typingUsers, who.userId);
    }

    /** `message:received`: appended after every message already shown. */
    method OnMessageReceived(m: M)
      modifies this`messages
      ensures messages == old(messages) + [m]
    {
      messages := messages + [m];
    }

    /** `user:typing`. */
    method OnUserTyping(t: UserTag)
      requires Valid()
      modifies this`typingUsers
      ensures Valid()
      ensures typingUsers == WithTyping(old(typingUsers), t)
    {
      if !Typing(typingUsers, t.userId) {
        assert (typingUsers + [t])[|typingUsers|] == t;
      }
      typingUsers := WithTyping(typingUsers, t);
    }

    /** `user:stopped-typing`. */
    method OnUserStoppedTyping(who: UserTag)
      requires Valid()
      modifies this`typingUsers
      ensures Valid()
      ensures typingUsers == WithoutTyping(old(typingUsers), who.userId)
    {
      FilterKeepsTypersDistinct(typingUsers, (t: UserTag) => t.userId != who.userId);
      typingUsers := WithoutTyping(typingUsers, who.userId);
    }

    /** `sendMessage`: emits `message:send` when connected, and otherwise only sets 'Not connected to server'. */
    method SendMessage(content: string, opts: Options)
      modifies this`outbox, this`error
      ensures hasSocket && connected ==> outbox == old(outbox) + [MessageSend(OutgoingSend(content, opts))] && error == old(error)
      ensures !(hasSocket && connected) ==> outbox == old(outbox) && error == Some(NotConnectedError)
    {
      if !hasSocket || !connected {
        error := Some(NotConnectedError);
        return;
      }
      outbox := outbox + [MessageSend(OutgoingSend(content, opts))];
    }

    /** The guard every other emitter shares: emit `e` when connected, otherwise do nothing at all. */
    method EmitIfConnected(e: ClientEvent)
      modifies this`outbox
      ensures outbox == if hasSocket && connected then old(outbox) + [e] else old(outbox)
    {
      if !hasSocket || !connected { return; }
      outbox := outbox + [e];
    }

    /** `startTyping`. */
    method StartTyping(opts: Options)
      modifies this`outbox
      ensures outbox == if hasSocket && connected then old(outbox) + [TypingStart(OutgoingTyping(opts))] else old(outbox)
    {
      EmitIfConnected(TypingStart(OutgoingTyping(opts)));
    }

    /** `stopTyping`. */
    method StopTyping(opts: Options)
      modifies this`outbox
      ensures outbox == if hasSocket && connected then old(outbox) + [TypingStop(OutgoingTyping(opts))] else old(outbox)
    {
      EmitIfConnected(TypingStop(OutgoingTyping(opts)));
    }

    /** `joinRoom`. */
    method JoinRoom(room: Room)
      modifies this`outbox
      ensures outbox == if hasSocket && connected then old(outbox) + [RoomJoin(room)] else old(outbox)
    {
      EmitIfConnected(RoomJoin(room));
    }

    /** `leaveRoom`. */
    method LeaveRoom(room: Room)
      modifies this`outbox
      ensures outbox == if hasSocket && connected then old(outbox) + [RoomLeave(room)] else old(outbox)
    {
      EmitIfConnected(RoomLeave(room));
    }

    /** `joinPrivateChat`. */
    method JoinPrivateChat(recipientId: UserId)
      modifies this`outbox
      ensures outbox == if hasSocket && connected then old(outbox) + [PrivateJoin(recipientId)] else old(outbox)
    {
      EmitIfConnected(PrivateJoin(recipientId));
    }

    /** `clearMessages`. */
    method ClearMessages()
      modifies this`messages
      ensures messages == []
    {
      messages := [];
    }

    /** `addMessages`: loaded history goes in front of the messages already shown, both in their own order. */
    method AddMessages(history: seq<M>)
      modifies this`messages
      ensures messages == history + old(messages)
    {
      messages := history + messages;
    }

    /** `clearError`. */
    method ClearError()
      modifies this`error
      ensures error == None
    {
      error := None;
    }
  }
}
