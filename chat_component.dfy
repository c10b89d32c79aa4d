/**
 * The decision logic of the chat component: the text box (`currentMessage`),
 * the busy flag (`isLoading`), the room shown (`currentRoomId`) and the user
 * its own auth subscription reports, with the chat service as collaborator.
 * A promise the component waits on is split in two: the call that starts it
 * and a `Settle...` method that runs its `then` or `catch` branch with the
 * outcome.
 */
module ChatUi {
  import opened Text
  import opened ChatModels
  import opened Store
  import opened Chat

  /** `event.key === 'Enter' && !event.shiftKey`. */
  function IsSendKey(key: string, shiftKey: bool): (r: bool)
    ensures r <==> key == "Enter" && !shiftKey
  {
    key == "Enter" && !shiftKey
  }

  /** `user?.uid`: the uid when a user is present. */
  function UidOf(user: Option<User>): (uid: Option<string>)
    ensures uid.Some? <==> user.Some?
    ensures user.Some? ==> uid == Some(user.value.uid)
  {
    if user.Some? then Some(user.value.uid) else None
  }

  class ChatComponent {
    const chatService: ChatService
    var currentMessage: string
    var currentUser: Option<User>
    var currentRoomId: string
    var isLoading: bool

    ghost predicate Valid()
      reads this, chatService, chatService.db
    {
      chatService.Valid()
    }

    /** The component shows the room the service is in. */
    ghost predicate InSync()
      reads this, chatService
    {
      currentRoomId == chatService.currentRoomId
    }

    constructor (chatService: ChatService)
      requires chatService.Valid()
      ensures Valid() && this.chatService == chatService
      ensures currentMessage == "" && currentUser == None && currentRoomId == "general" && !isLoading
    {
      this.chatService := chatService;
      currentMessage := "";
      currentUser := None;
      currentRoomId := "general";
      isLoading := false;
    }

    /** The guard of `sendMessage`: the trimmed text is non-empty and a user is present. */
    function CanSend(): (r: bool)
      reads this
      ensures r <==> !Blank(currentMessage) && currentUser.Some?
    {
      Trim(currentMessage) != "" && currentUser.Some?
    }

    /**
     * What the service did with `text`, as its `sendMessage` promises: the
     * pending outcome, the call trace and the store's contents.
     */
    twostate predicate HandedToService(text: string, now: int, createdAt: string, key: string, writeOk: bool,
                                       new pending: Option<Result<()>>)
      reads this, chatService, chatService.db
    {
      var db := chatService.db;
      var path := MessagesPath(chatService.currentRoomId);
      && pending.Some?
      && (chatService.currentUser.None? ==>
            && pending.value == Err(NotAuthenticated)
            && db.calls == old(db.calls) && db.children == old(db.children))
      && (chatService.currentUser.Some? ==>
            var rec := MessageRecord(NewMessage(text, chatService.currentUser.value, now, createdAt));
            && db.calls == old(db.calls) + [PushCall(path, rec)]
            && pending.value == (if writeOk then Ok(()) else Err(WriteFailed))
            && db.children == (if writeOk then old(db.children)[path := old(db.At(path)) + [Child(key, rec)]]
                               else old(db.children)))
    }

    /**
     * The component and the service are in `roomId`, as the service's
     * `switchRoom` promises: old path detached, one empty view published,
     * new path attached, in that order; the store's data untouched.
     */
    twostate predicate SwitchedTo(roomId: string)
      reads this, chatService, chatService.db
    {
      var db := chatService.db;
      var oldPath := MessagesPath(old(chatService.currentRoomId));
      && currentRoomId == roomId && chatService.currentRoomId == roomId
      && chatService.messages == [] && chatService.published == old(chatService.published) + [[]]
      && db.calls == old(db.calls) + [OffCall(oldPath), OnValueCall(MessagesPath(roomId))]
      && chatService.publishedAt == old(chatService.publishedAt) + [|old(db.calls)| + 1]
      && db.listeners == old(db.listeners) - {oldPath} + {MessagesPath(roomId)}
      && db.children == old(db.children)
    }

    /**
     * The part of `ngOnInit` that drives the service: subscribe to the room
     * list, start listening to the current room, and take over its id.
     */
    method NgOnInit()
      requires Valid()
      modifies this`currentRoomId, chatService.db`listeners, chatService.db`calls
      ensures Valid() && InSync()
      ensures chatService.ListeningTo(MessagesPath(chatService.currentRoomId))
      ensures RoomsPath in chatService.db.listeners
      ensures chatService.db.listeners == old(chatService.db.listeners) + {RoomsPath, MessagesPath(chatService.currentRoomId)}
      ensures chatService.db.calls == old(chatService.db.calls) +
                [OnValueCall(RoomsPath), OnValueCall(MessagesPath(chatService.currentRoomId))]
    {
      chatService.GetRooms();
      chatService.ListenToMessages();
      currentRoomId := chatService.GetCurrentRoomId();
    }

    /** `ngOnDestroy`: stops listening to the current room. */
    method NgOnDestroy()
      requires Valid()
      modifies chatService.db`listeners, chatService.db`calls
      ensures Valid()
      ensures chatService.db.listeners == old(chatService.db.listeners) - {MessagesPath(chatService.currentRoomId)}
      ensures chatService.db.calls == old(chatService.db.calls) + [OffCall(MessagesPath(chatService.currentRoomId))]
    {
      chatService.StopListening();
    }

    /** The component's auth subscription. */
    method OnUserChanged(user: Option<User>)
      modifies this`currentUser
      ensures currentUser == user
    {
      currentUser := user;
    }

    /**
     * `sendMessage()`: when the guard fails nothing happens at all; otherwise
     * the component becomes busy and hands the untrimmed text to the service.
     * The result is the promise to settle, or None when nothing was sent.
     */
    method SendMessage(now: int, createdAt: string, key: string, writeOk: bool)
      returns (pending: Option<Result<()>>)
      requires Valid()
      requires key != "" && !HasKey(chatService.db.At(MessagesPath(chatService.currentRoomId)), key)
      modifies this`isLoading, chatService.db`children, chatService.db`calls
      ensures Valid()
      ensures chatService.db.listeners == old(chatService.db.listeners)
      ensures !old(CanSend()) ==>
        && pending == None && isLoading == old(isLoading)
        && chatService.db.calls == old(chatService.db.calls)
        && chatService.db.children == old(chatService.db.children)
      ensures old(CanSend()) ==>
        isLoading && HandedToService(currentMessage, now, createdAt, key, writeOk, pending)
    {
      if Trim(currentMessage) == "" || currentUser.None? {
        return None;
      }
      isLoading := true;
      var outcome := chatService.SendMessage(currentMessage, now, createdAt, key, writeOk);
      pending := Some(outcome);
    }

    /** The `then` / `catch` of the send: success clears the text box, both end the busy state. */
    method SettleSend(outcome: Result<()>)
      modifies this`currentMessage, this`isLoading
      ensures !isLoading
      ensures currentMessage == if outcome.Ok? then "" else old(currentMessage)
    {
      if outcome.Ok? {
        currentMessage := "";
        isLoading := false;
      } else {
        isLoading := false;
      }
    }

    /** `onKeyPress(event)`: Enter without Shift prevents the default and sends; any other key does nothing. */
    method OnKeyPress(eventKey: string, shiftKey: bool, now: int, createdAt: string, key: string, writeOk: bool)
      returns (preventDefault: bool, pending: Option<Result<()>>)
      requires Valid()
      requires key != "" && !HasKey(chatService.db.At(MessagesPath(chatService.currentRoomId)), key)
      modifies this`isLoading, chatService.db`children, chatService.db`calls
      ensures Valid()
      ensures preventDefault == IsSendKey(eventKey, shiftKey)
      ensures pending.Some? <==> preventDefault && old(CanSend())
      ensures pending.Some? ==>
        isLoading && HandedToService(currentMessage, now, createdAt, key, writeOk, pending)
      ensures pending.None? ==>
        && isLoading == old(isLoading)
        && chatService.db.calls == old(chatService.db.calls)
        && chatService.db.children == old(chatService.db.children)
    {
      preventDefault := IsSendKey(eventKey, shiftKey);
      if preventDefault {
        pending := SendMessage(now, createdAt, key, writeOk);
      } else {
        pending := None;
      }
    }

    /** `switchRoom(roomId)`: record the room, then switch the service. */
    method SwitchRoom(roomId: string)
      requires Valid()
      modifies this`currentRoomId, chatService`currentRoomId, chatService`messages, chatService`published, chatService`publishedAt,
               chatService.db`listeners, chatService.db`calls
      ensures Valid() && InSync()
      ensures SwitchedTo(roomId)
      ensures chatService.GetCurrentRoomId() == roomId
      ensures chatService.ListeningTo(MessagesPath(roomId))
    {
      currentRoomId := roomId;
      chatService.SwitchRoom(roomId);
    }

    /** `isCurrentUser(message)`: `currentUser?.uid === message.userId`. */
    function IsCurrentUser(message: ChatMessage): (r: bool)
      reads this
      ensures r <==> currentUser.Some? && currentUser.value.uid == message.userId
    {
      UidOf(currentUser) == Some(message.userId)
    }

    /**
     * `createNewRoom()`: `roomName` is what the prompt returned (None when it
     * was cancelled). A missing or blank name does nothing; otherwise the
     * service creates a room with the trimmed name and no description.
     */
    method CreateNewRoom(roomName: Option<string>, createdAt: string, key: string, writeOk: bool)
      returns (pending: Option<Result<string>>)
      requires Valid()
      requires key != "" && !HasKey(chatService.db.At(RoomsPath), key)
      modifies chatService.db`children, chatService.db`calls
      ensures Valid()
      ensures chatService.db.listeners == old(chatService.db.listeners)
      ensures (roomName.None? || Trim(roomName.value) == "") ==>
        && pending == None
        && chatService.db.calls == old(chatService.db.calls)
        && chatService.db.children == old(chatService.db.children)
      ensures roomName.Some? && Trim(roomName.value) != "" ==>
        && pending.Some?
        && (chatService.currentUser.None? ==>
              && pending.value == Err(NotAuthenticated)
              && chatService.db.calls == old(chatService.db.calls)
              && chatService.db.children == old(chatService.db.children))
        && (chatService.currentUser.Some? ==>
              var rec := RoomRecord(NewRoom(Trim(roomName.value), None, chatService.currentUser.value, createdAt));
              && chatService.db.calls == old(chatService.db.calls) + [PushCall(RoomsPath, rec)]
              && pending.value == (if writeOk then Ok(key) else Err(WriteFailed))
              && chatService.db.children ==
                   (if writeOk then old(chatService.db.children)[RoomsPath := old(chatService.db.At(RoomsPath)) + [Child(key, rec)]]
                    else old(chatService.db.children)))
    {
      if roomName.None? || Trim(roomName.value) == "" {
        return None;
      }
      var outcome := chatService.CreateRoom(Trim(roomName.value), None, createdAt, key, writeOk);
      pending := Some(outcome);
    }

    /** The `then` / `catch` of room creation: success switches into the new room, failure changes nothing. */
    method SettleCreateRoom(outcome: Result<string>)
      requires Valid()
      modifies this`currentRoomId, chatService`currentRoomId, chatService`messages, chatService`published, chatService`publishedAt,
               chatService.db`listeners, chatService.db`calls
      ensures Valid()
      ensures outcome.Ok? ==>
        && SwitchedTo(outcome.value)
        && chatService.GetCurrentRoomId() == outcome.value
        && chatService.ListeningTo(MessagesPath(outcome.value))
      ensures outcome.Err? ==>
        && currentRoomId == old(currentRoomId) && chatService.currentRoomId == old(chatService.currentRoomId)
        && chatService.messages == old(chatService.messages)
        && chatService.published == old(chatService.published)
        && chatService.publishedAt == old(chatService.publishedAt)
        && chatService.db.listeners == old(chatService.db.listeners)
        && chatService.db.calls == old(chatService.db.calls)
    {
      if outcome.Ok? {
        SwitchRoom(outcome.value);
      }
    }
  }
}
