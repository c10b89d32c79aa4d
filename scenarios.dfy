/**
 * Client sessions: each method drives the service or the component through a
 * short session against a store whose call trace acts as a spy, and asserts
 * what the contracts alone let a caller conclude.
 */
module ChatScenarios {
  import opened Text
  import opened ChatModels
  import opened Store
  import opened Chat
  import opened ChatUi

  /** Sending while signed out is rejected and never reaches the store. */
  method UnauthenticatedSendTouchesNothing() {
    var db := new Database();
    var service := new ChatService(db);
    var r := service.SendMessage("hello", 1000, "t0", "k1", true);
    assert r == Err(NotAuthenticated);
    assert db.calls == [] && db.children == map[];
  }

  /** A whitespace-only message is never handed to the service. */
  method BlankMessageIsNotSent(user: User) {
    var db := new Database();
    var service := new ChatService(db);
    service.OnUserChanged(Some(user));
    var chat := new ChatComponent(service);
    chat.OnUserChanged(Some(user));
    chat.currentMessage := " \t ";
    var pending := chat.SendMessage(1000, "t0", "k1", true);
    assert pending == None && !chat.isLoading;
    assert db.calls == [];
  }

  /** A successful send records the untrimmed text, and settling it clears the box. */
  method SendThenSettle(chat: ChatComponent, user: User)
    requires chat.Valid() && chat.chatService.db.calls == [] && chat.currentMessage == " hi "
    requires chat.chatService.currentUser == Some(user) && chat.currentUser == Some(user)
    requires !HasKey(chat.chatService.db.At(MessagesPath(chat.chatService.currentRoomId)), "k1")
    modifies chat, chat.chatService.db
  {
    assert !Blank(" hi ") by { assert " hi "[1] == 'h'; }
    var pending := chat.SendMessage(1000, "t0", "k1", true);
    assert chat.isLoading && pending == Some(Ok(()));
    assert chat.chatService.db.calls[0].record.message.text == " hi ";
    chat.SettleSend(pending.value);
    assert chat.currentMessage == "" && !chat.isLoading;
  }

  /** After switching away from a room, a late delivery for it leaves the view empty. */
  method SwitchedRoomIsSilent(b: string, snapshot: seq<Child<ChatMessage>>)
    requires b != "general"
  {
    var db := new Database();
    var service := new ChatService(db);
    service.ListenToMessages();
    service.SwitchRoom(b);
    assert service.messages == [];
    // The empty view was emitted between detaching `general` and attaching `b`.
    ghost var at := service.publishedAt[|service.publishedAt| - 1];
    assert db.calls[at - 1] == OffCall(MessagesPath("general")) && db.calls[at] == OnValueCall(MessagesPath(b));
    service.OnMessagesSnapshot(MessagesPath("general"), snapshot);
    assert service.messages == [];
    service.OnMessagesSnapshot(MessagesPath(b), snapshot);
    assert SortedByTimestamp(service.messages);
  }

  /** Stopping twice leaves the same listeners as stopping once. */
  method StopTwice() {
    var db := new Database();
    var service := new ChatService(db);
    service.ListenToMessages();
    service.StopListening();
    var once := db.listeners;
    service.StopListening();
    assert db.listeners == once == {};
  }

  /** Creating a room from the prompt switches the component into it. */
  method CreateRoomAndSwitch(user: User) {
    var db := new Database();
    var service := new ChatService(db);
    service.OnUserChanged(Some(user));
    var chat := new ChatComponent(service);
    assert !IsWhitespace('T');
    var pending := chat.CreateNewRoom(Some("Team X"), "t0", "room1", true);
    assert pending == Some(Ok("room1"));
    assert db.calls[0].record.room.createdBy == user.uid;
    assert db.calls[0].record.room.participantCount == Some(1);
    chat.SettleCreateRoom(pending.value);
    assert chat.currentRoomId == "room1" && service.GetCurrentRoomId() == "room1";
  }
}
