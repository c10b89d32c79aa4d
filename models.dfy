/**
 * The records of the chat application: the signed-in user as the chat code
 * reads it, a chat message, a chat room, one child of a delivered snapshot,
 * and the builders that turn the current user and the call's arguments into
 * the records written to the store.
 */
module ChatModels {
  import opened Text

  datatype Option<+T> = None | Some(value: T)

  /** Why a service call was rejected. */
  datatype Failure =
    | NotAuthenticated  // nobody is signed in
    | WriteFailed       // the store refused or lost the write

  /** The settled outcome of a promise. */
  datatype Result<+T> = Ok(value: T) | Err(failure: Failure)

  /** The three fields of the signed-in user the chat code reads; email and display name may be null. */
  datatype User = User(uid: string, email: Option<string>, displayName: Option<string>)

  datatype ChatMessage = ChatMessage(
    id: Option<string>,
    text: string,
    userId: string,
    userEmail: string,
    userName: Option<string>,
    timestamp: int,
    createdAt: string)

  datatype ChatRoom = ChatRoom(
    id: Option<string>,
    name: string,
    description: Option<string>,
    createdBy: string,
    createdAt: string,
    lastMessage: Option<ChatMessage>,
    participantCount: Option<int>)

  /** One child of a snapshot the store delivers: its key and its value. */
  datatype Child<+T> = Child(key: string, value: T)

  /** `key || undefined`: the empty key is falsy and becomes an absent id. */
  function KeyToId(key: string): (id: Option<string>)
    ensures id == None <==> key == ""
    ensures id != None ==> id == Some(key)
  {
    if key == "" then None else Some(key)
  }

  /** `message.id = key || undefined` on one delivered child. */
  function StampMessage(c: Child<ChatMessage>): (m: ChatMessage)
    ensures m.id == KeyToId(c.key)
    ensures m.text == c.value.text && m.userId == c.value.userId && m.userEmail == c.value.userEmail
    ensures m.userName == c.value.userName && m.timestamp == c.value.timestamp && m.createdAt == c.value.createdAt
  {
    c.value.(id := KeyToId(c.key))
  }

  /** `room.id = key || undefined` on one delivered child. */
  function StampRoom(c: Child<ChatRoom>): (room: ChatRoom)
    ensures room.id == KeyToId(c.key)
    ensures room.name == c.value.name && room.description == c.value.description
    ensures room.createdBy == c.value.createdBy && room.createdAt == c.value.createdAt
    ensures room.lastMessage == c.value.lastMessage && room.participantCount == c.value.participantCount
  {
    c.value.(id := KeyToId(c.key))
  }

  /** `user.email || 'Unknown'`. */
  function EmailLabel(u: User): (r: string)
    ensures r != ""
    ensures u.email.Some? && u.email.value != "" ==> r == u.email.value
    ensures (u.email.None? || u.email.value == "") ==> r == "Unknown"
  {
    if u.email.Some? && u.email.value != "" then u.email.value else "Unknown"
  }

  /**
   * `user.displayName || user.email?.split('@')[0] || 'Anonymous'`: the display
   * name when it is non-empty, else the part of the e-mail address before its
   * first '@' when that part is non-empty, else "Anonymous".
   */
  function DisplayLabel(u: User): (r: string)
    ensures r != ""
    ensures u.displayName.Some? && u.displayName.value != "" ==> r == u.displayName.value
    ensures (u.displayName.None? || u.displayName.value == "") && u.email.Some? ==>
      var e := u.email.value;
      if e != "" && e[0] != '@' then
        |r| <= |e| && r == e[..|r|] && '@' !in r && (|r| == |e| || e[|r|] == '@')
      else
        r == "Anonymous"
    ensures (u.displayName.None? || u.displayName.value == "") && u.email.None? ==> r == "Anonymous"
  {
    if u.displayName.Some? && u.displayName.value != "" then u.displayName.value
    else
      var local := if u.email.Some? then BeforeFirst(u.email.value, '@') else "";
      if local != "" then local else "Anonymous"
  }

  /** The record `sendMessage` writes (it has no id: the store assigns the key). */
  function NewMessage(text: string, u: User, now: int, createdAt: string): (m: ChatMessage)
    ensures m.id == None && m.text == text && m.userId == u.uid
    ensures m.userEmail == EmailLabel(u) && m.userName == Some(DisplayLabel(u))
    ensures m.timestamp == now && m.createdAt == createdAt
  {
    ChatMessage(None, text, u.uid, EmailLabel(u), Some(DisplayLabel(u)), now, createdAt)
  }

  /** The record `createRoom` writes: `description || ''`, one participant, no id, no last message. */
  function NewRoom(name: string, description: Option<string>, u: User, createdAt: string): (room: ChatRoom)
    ensures room.id == None && room.name == name && room.createdBy == u.uid && room.createdAt == createdAt
    ensures room.description == Some(if description.Some? then description.value else "")
    ensures room.lastMessage == None && room.participantCount == Some(1)
  {
    var desc := if description.Some? then description.value else "";
    ChatRoom(None, name, Some(desc), u.uid, createdAt, None, Some(1))
  }
}
