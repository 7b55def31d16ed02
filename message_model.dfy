/**
  The Message schema: the fields of a stored chat message, the defaults the schema fills in,
  and the validation `Message.create` runs before anything is written.
*/
module MessageModel {
  import opened Common
  import opened JsString
  import opened Protocol

  /** The schema's `maxlength` for `content`, counted in UTF-16 code units. */
  const MaxContentLength := 2000

  /** The `type` enum. */
  datatype MessageType = Text | Image | File

  /** A stored message. `recipient` is `None` for the schema's `null`. */
  datatype MessageRecord = MessageRecord(
    id: MessageId, sender: UserId, content: string, kind: MessageType, room: Room,
    recipient: Option<UserId>, isPrivate: bool, readBy: seq<UserId>, createdAt: int)

  /** The fields handed to `Message.create`; `None` leaves a field undefined so that its default applies. */
  datatype MessageInit = MessageInit(
    content: Option<string>, kind: Option<string>, room: Option<Room>, recipient: Option<UserId>, isPrivate: Option<bool>)

  /** A failed schema validator. Mongoose runs every validator and reports all that fail. */
  datatype SchemaError = ContentRequired | ContentTooLong | InvalidKind(value: string)

  function KindOf(s: string): Option<MessageType>
  {
    if s == "text" then Some(Text) else if s == "image" then Some(Image) else if s == "file" then Some(File) else None
  }

  /** What every stored message satisfies: trimmed, non-empty content within the length limit. */
  predicate ValidRecord(m: MessageRecord)
  {
    m.content != "" && Trim(m.content) == m.content && Utf16Length(m.content) <= MaxContentLength
  }

  /**
    The validators that fail for `init`, after the `trim` setter has run on `content`: `required`
    rejects a missing or empty (after trimming, so blank) content, `maxlength` an over-long one,
    `enum` an unknown type.
  */
  function SchemaErrors(init: MessageInit): (errs: set<SchemaError>)
    ensures ContentRequired in errs <==> init.content.None? || IsBlank(init.content.value)
    ensures ContentTooLong in errs <==> init.content.Some? && Utf16Length(Trim(init.content.value)) > MaxContentLength
    ensures init.kind.Some? ==> (InvalidKind(init.kind.value) in errs <==> KindOf(init.kind.value).None?)
    ensures forall v :: InvalidKind(v) in errs ==> init.kind == Some(v)
  {
    var required := init.content.None? || IsBlank(init.content.value);
    var tooLong := init.content.Some? && Utf16Length(Trim(init.content.value)) > MaxContentLength;
    var badKind := init.kind.Some? && KindOf(init.kind.value).None?;
    (if required then {ContentRequired} else {})
    + (if tooLong then {ContentTooLong} else {})
    + (if badKind then {InvalidKind(init.kind.value)} else {})
  }

  /**
    `Message.create(init)` with the id and creation time the store assigns: a validated record with the
    schema defaults (`type` text, `room` general, `recipient` null, `isPrivate` false, `readBy` empty,
    `createdAt` now), or the set of failed validators.
  */
  function Create(id: MessageId, sender: UserId, init: MessageInit, now: int): (r: Result<MessageRecord, set<SchemaError>>)
    ensures r.Err? <==> SchemaErrors(init) != {}
    ensures r.Err? ==> r.error == SchemaErrors(init)
    ensures r.Ok? ==> ValidRecord(r.value)
    ensures r.Ok? ==> r.value.id == id && r.value.sender == sender && r.value.createdAt == now
    ensures r.Ok? ==> r.value.content == Trim(init.content.value)
    ensures r.Ok? ==> r.value.kind == (if init.kind.Some? then KindOf(init.kind.value).value else Text)
    ensures r.Ok? ==> r.value.room == WithDefault(init.room, GeneralRoom)
    ensures r.Ok? ==> r.value.recipient == init.recipient
    ensures r.Ok? ==> r.value.isPrivate == WithDefault(init.isPrivate, false)
    ensures r.Ok? ==> r.value.readBy == []
  {
    var errs := SchemaErrors(init);
    if errs != {} then Err(errs)
    else
      var content := Trim(init.content.value);
      TrimIdempotent(init.content.value);
      TrimEmptyIffBlank(init.content.value);
      Ok(MessageRecord(
        id, sender, content,
        if init.kind.Some? then KindOf(init.kind.value).value else Text,
        WithDefault(init.room, GeneralRoom), init.recipient, WithDefault(init.isPrivate, false), [], now))
  }
}
