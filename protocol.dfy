/**
  The values exchanged between the browser client and the socket server: identifiers,
  the payloads of the events each side emits, and the JavaScript truthiness rules the
  handlers apply to optional fields.
*/
module Protocol {
  import opened Common

  type UserId = string
  type SocketId = string
  type Room = string
  type MessageId = string

  /** The room every socket joins on connection and the default room of a message. */
  const GeneralRoom: Room := "general"

  /** `{_id, username, avatar}`: a user as `users:online`, `user:joined` and the client's online list carry it. */
  datatype UserSummary = UserSummary(id: UserId, username: string, avatar: string)

  /** `{userId, username}`: the payload of `user:typing`, `user:stopped-typing` and `user:left`. */
  datatype UserTag = UserTag(userId: UserId, username: string)

  /** The `message:received` payload; `sender` is the sending socket's user. */
  datatype ChatPayload = ChatPayload(
    id: MessageId, content: string, sender: UserSummary, room: Room, isPrivate: bool, createdAt: int)

  /** A `message:send` body as the server destructures it; `None` is a field left undefined. */
  datatype SendData = SendData(
    content: Option<string>, room: Option<Room>, recipientId: Option<UserId>, isPrivate: Option<bool>)

  /** A `typing:start` / `typing:stop` body as the server destructures it. */
  datatype TypingData = TypingData(room: Option<Room>, recipientId: Option<UserId>)

  /** JavaScript truthiness of an optional string: present and not the empty string. */
  predicate Truthy(v: Option<string>)
  {
    v.Some? && v.value != ""
  }

  /** A destructuring default `{x = d}`: the default replaces only an undefined field. */
  function WithDefault<T>(v: Option<T>, d: T): (r: T)
    ensures v.Some? ==> r == v.value
    ensures v.None? ==> r == d
  {
    if v.Some? then v.value else d
  }
}
