/**
  The chat page: which conversation is open (the general room, or a direct chat with a selected
  user), how that choice addresses the messages and typing notices the page hands to the socket
  provider, which typing notices it shows, which history it requests, and the loading sequence
  that replaces the message list with that history.
*/
module ChatPage {
  import opened Common
  import opened Protocol
  import opened SocketContext
  import SocketHandler

  /** The open conversation: a selected user for a direct chat, `None` for the general room. */
  type Selection = Option<UserSummary>

  /** The options `handleSendMessage` passes: room null in a direct chat, recipient the selected `_id`, privacy `!!selectedUser`. */
  function SendOptions(sel: Selection): Options
  {
    Options(if sel.Some? then None else Some(GeneralRoom), if sel.Some? then Some(sel.value.id) else None, Some(sel.Some?))
  }

  /** The options `handleTypingStart` and `handleTypingStop` pass: the same room and recipient, no privacy flag. */
  function TypingOptions(sel: Selection): Options
  {
    Options(if sel.Some? then None else Some(GeneralRoom), if sel.Some? then Some(sel.value.id) else None, None)
  }

  /** The `message:send` body that leaves the browser for `content` typed in conversation `sel`. */
  function SendPayload(sel: Selection, content: string): SendData
  {
    OutgoingSend(content, SendOptions(sel))
  }

  /** The `typing:start` / `typing:stop` body that leaves the browser in conversation `sel`. */
  function TypingPayload(sel: Selection): TypingData
  {
    OutgoingTyping(TypingOptions(sel))
  }

  /**
    In a direct chat the provider turns the null room into `general` and keeps the selected id, so the
    server sees a private message to that user; in the general room it sees a public message with a
    null recipient.
  */
  lemma {:induction false} SendPayloadShape(sel: Selection, content: string)
    ensures sel.Some? && sel.value.id != "" ==>
      SendPayload(sel, content) == SendData(Some(content), Some(GeneralRoom), Some(sel.value.id), Some(true))
    ensures sel.None? ==>
      SendPayload(sel, content) == SendData(Some(content), Some(GeneralRoom), None, Some(false))
  {
  }

  /** Typing notices are addressed exactly like the messages of the same conversation. */
  lemma {:induction false} TypingAddressedLikeSends(sel: Selection, content: string)
    ensures TypingPayload(sel).room == SendPayload(sel, content).room
    ensures TypingPayload(sel).recipientId == SendPayload(sel, content).recipientId
  {
  }

  /**
    End to end: a message typed in a direct chat with a user who has an id, once stored, reaches the
    sender's socket and the recipient's registered socket room when that user is online, and no one else.
  */
  lemma {:induction false} DirectChatDelivery(
    sel: Selection, content: string, online: map<UserId, SocketHandler.OnlineEntry>,
    sessions: map<SocketId, SocketHandler.Session>, sid: SocketId, outcome: SocketHandler.StoreOutcome)
    requires sel.Some? && sel.value.id != ""
    requires sid in sessions
    requires SocketHandler.SendSucceeds(SendPayload(sel, content), outcome)
    ensures var r := SocketHandler.HandleSend(online, sessions, sid, SendPayload(sel, content), outcome);
      && SocketHandler.Reached(r.emissions, SocketHandler.IsDelivery)
         == (if sel.value.id in online then SocketHandler.Members(sessions, online[sel.value.id].socketId) else {}) + {sid}
      && SocketHandler.Reached(r.emissions, SocketHandler.IsError) == {}
  {
    SendPayloadShape(sel, content);
    SocketHandler.PrivateSendDelivery(online, sessions, sid, SendPayload(sel, content), outcome);
  }

  /** End to end: a message typed in the general room, once stored, reaches exactly the members of `general`. */
  lemma {:induction false} GeneralChatDelivery(
    content: string, online: map<UserId, SocketHandler.OnlineEntry>,
    sessions: map<SocketId, SocketHandler.Session>, sid: SocketId, outcome: SocketHandler.StoreOutcome)
    requires sid in sessions
    requires SocketHandler.SendSucceeds(SendPayload(None, content), outcome)
    ensures var r := SocketHandler.HandleSend(online, sessions, sid, SendPayload(None, content), outcome);
      && |r.emissions| == 1
      && r.emissions[0].targets == SocketHandler.Members(sessions, GeneralRoom)
      && r.emissions[0].event.MessageReceived?
  {
    SendPayloadShape(None, content);
    SocketHandler.PublicSendDelivery(online, sessions, sid, SendPayload(None, content), outcome);
  }

  /**
    `filteredTypingUsers`: in a direct chat only the notices of the selected user, in the general room
    every notice, in the order they arrived.
  */
  function VisibleTypers(sel: Selection, typers: seq<UserTag>): (r: seq<UserTag>)
    ensures sel.None? ==> r == typers
    ensures sel.Some? ==> forall i :: 0 <= i < |r| ==> r[i].userId == sel.value.id && r[i] in typers
    ensures sel.Some? ==> forall i :: 0 <= i < |typers| && typers[i].userId == sel.value.id ==> typers[i] in r
  {
    if sel.Some? then Filter(typers, (t: UserTag) => t.userId == sel.value.id) else typers
  }

  /** Of a typing list free of duplicates, at most one entry belongs to any given user. */
  lemma {:induction false} OneEntryPerTyper(typers: seq<UserTag>, id: UserId, keep: UserTag -> bool)
    requires DistinctTypers(typers)
    requires forall t :: keep(t) == (t.userId == id)
    ensures |Filter(typers, keep)| <= 1
  {
    if typers != [] {
      OneEntryPerTyper(typers[1..], id, keep);
      if keep(typers[0]) {
        assert forall i :: 0 <= i < |typers[1..]| ==> typers[1..][i] == typers[i + 1];
        FilterKeepsNone(typers[1..], keep);
      }
    }
  }

  /** With the provider's typing list free of duplicates, a direct chat shows at most one typing notice. */
  lemma {:induction false} VisibleTypersAtMostOne(sel: Selection, typers: seq<UserTag>)
    requires sel.Some? && DistinctTypers(typers)
    ensures |VisibleTypers(sel, typers)| <= 1
  {
    OneEntryPerTyper(typers, sel.value.id, (t: UserTag) => t.userId == sel.value.id);
  }

  const MessagesPath := "/api/messages/"
  const PrivateSegment := "private/"

  /** The history request of `loadMessages`: the private thread with the selected user, or the general room. */
  function HistoryUrl(sel: Selection): string
  {
    if sel.Some? then MessagesPath + PrivateSegment + sel.value.id else MessagesPath + GeneralRoom
  }

  /** Which controller a `GET` path reaches among the two history routes: a room's history or a private thread. */
  datatype HistoryRoute = RoomHistory(room: Room) | PrivateHistory(userId: UserId) | NoRoute

  predicate SlashFree(s: string) { '/' !in s }

  /**
    The two history routes in their declaration order: `/messages/:room` takes exactly one non-empty
    segment, `/messages/private/:userId` exactly two whose first is `private`.
  */
  function Resolve(path: string): (r: HistoryRoute)
    ensures r.RoomHistory? ==> path == MessagesPath + r.room && r.room != "" && SlashFree(r.room)
    ensures r.PrivateHistory? ==> path == MessagesPath + PrivateSegment + r.userId && r.userId != "" && SlashFree(r.userId)
  {
    if |path| < |MessagesPath| || path[..|MessagesPath|] != MessagesPath then NoRoute
    else
      var rest := path[|MessagesPath|..];
      assert path == MessagesPath + rest;
      if rest != "" && SlashFree(rest) then RoomHistory(rest)
      else if |rest| > |PrivateSegment| && rest[..|PrivateSegment|] == PrivateSegment && SlashFree(rest[|PrivateSegment|..]) then
        assert rest == PrivateSegment + rest[|PrivateSegment|..];
        PrivateHistory(rest[|PrivateSegment|..])
      else NoRoute
  }

  /**
    The page's history request reaches the intended controller: the general room's history without a
    selection, and the private thread with the selected user when that user's id is a single non-empty
    path segment.
  */
  lemma {:induction false} HistoryUrlRoutes(sel: Selection)
    requires sel.Some? ==> sel.value.id != "" && SlashFree(sel.value.id)
    ensures Resolve(HistoryUrl(sel)) == if sel.Some? then PrivateHistory(sel.value.id) else RoomHistory(GeneralRoom)
  {
    var url := HistoryUrl(sel);
    assert url[..|MessagesPath|] == MessagesPath;
    if sel.Some? {
      var rest := PrivateSegment + sel.value.id;
      assert url[|MessagesPath|..] == rest;
      assert rest[7] == '/';
      assert rest[..|PrivateSegment|] == PrivateSegment;
      assert rest[|PrivateSegment|..] == sel.value.id;
    } else {
      assert url[|MessagesPath|..] == GeneralRoom;
    }
  }

  /** The page's view state, over the socket provider it uses. */
  class ChatView<M> {
    var client: SocketClient<M>
    var selected: Selection
    var loadingMessages: bool

    /** Nothing selected, nothing loading. */
    constructor (client: SocketClient<M>)
      ensures this.client == client && selected == None && !loadingMessages
    {
      this.client := client;
      selected := None;
      loadingMessages := false;
    }

    /** `handleSelectUser`. */
    method HandleSelectUser(user: Selection)
      modifies this`selected
      ensures selected == user
    {
      selected := user;
    }

    /**
      The history effect: only when connected, `loadMessages` shows the spinner, empties the message
      list and requests the history of the open conversation; `request` is that URL, `None` when not connected.
    */
    method BeginLoad() returns (request: Option<string>)
      modifies this`loadingMessages, client`messages
      ensures request == if client.connected then Some(HistoryUrl(selected)) else None
      ensures client.connected ==> loadingMessages && client.messages == []
      ensures !client.connected ==> loadingMessages == old(loadingMessages) && client.messages == old(client.messages)
    {
      if !client.connected {
        return None;
      }
      loadingMessages := true;
      client.ClearMessages();
      request := Some(HistoryUrl(selected));
    }

    /**
      The end of `loadMessages`: a successful response (`Some(history)`) goes in front of whatever
      arrived live in the meantime; a failed request or one without `success` adds nothing; the spinner
      goes away in either case.
    */
    method FinishLoad(response: Option<seq<M>>)
      modifies this`loadingMessages, client`messages
      ensures !loadingMessages
      ensures response.Some? ==> client.messages == response.value + old(client.messages)
      ensures response.None? ==> client.messages == old(client.messages)
    {
      if response.Some? {
        client.AddMessages(response.value);
      }
      loadingMessages := false;
    }

    /** `handleSendMessage`: the provider's `sendMessage` with the open conversation's addressing. */
    method HandleSendMessage(content: string)
      modifies client`outbox, client`error
      ensures client.hasSocket && client.connected ==>
        client.outbox == old(client.outbox) + [MessageSend(SendPayload(selected, content))] && client.error == old(client.error)
      ensures !(client.hasSocket && client.connected) ==>
        client.outbox == old(client.outbox) && client.error == Some(NotConnectedError)
    {
      client.SendMessage(content, SendOptions(selected));
    }

    /** `handleTypingStart`. */
    method HandleTypingStart()
      modifies client`outbox
      ensures client.outbox == if client.hasSocket && client.connected then old(client.outbox) + [TypingStart(TypingPayload(selected))] else old(client.outbox)
    {
      client.StartTyping(TypingOptions(selected));
    }

    /** `handleTypingStop`. */
    method HandleTypingStop()
      modifies client`outbox
      ensures client.outbox == if client.hasSocket && client.connected then old(client.outbox) + [TypingStop(TypingPayload(selected))] else old(client.outbox)
    {
      client.StopTyping(TypingOptions(selected));
    }
  }

  /**
    A live message that arrives while the history is loading ends up after the whole history: the
    list is emptied first, the live message appended, and the history then put in front.
  */
  method LateHistoryScenario(history: seq<string>, live: string) returns (shown: seq<string>, request: Option<string>)
    ensures request == Some("/api/messages/general")
    ensures shown == history + [live]
  {
    var client := new SocketClient<string>();
    client.Attach();
    client.OnConnect();
    client.OnMessageReceived("stale");
    var view := new ChatView(client);
    request := view.BeginLoad();
    assert HistoryUrl(None) == "/api/messages/general";
    client.OnMessageReceived(live);
    view.FinishLoad(Some(history));
    shown := client.messages;
  }
}
