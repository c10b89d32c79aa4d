/**
 * The chat service: the signed-in user fed by the auth stream, the current
 * room (initially "general"), and the published message view (initially
 * empty), working against the realtime store. Messages of room `r` live under
 * `rooms/r/messages`, rooms under `rooms`.
 */
module Chat {
  import opened ChatModels
  import opened Store

  const RoomsPath: string := "rooms"

  /** `rooms/${roomId}/messages`; the room id can be read back from the path. */
  function MessagesPath(roomId: string): (p: string)
    ensures |p| == |roomId| + 15 && p != RoomsPath
    ensures p[6..|p| - 9] == roomId
  {
    "rooms/" + roomId + "/messages"
  }

  /** Two rooms share a message path only if they are the same room. */
  lemma MessagesPathInjective(a: string, b: string)
    ensures MessagesPath(a) == MessagesPath(b) <==> a == b
  {
  }

  predicate SortedByTimestamp(s: seq<ChatMessage>) {
    forall i, j :: 0 <= i < j < |s| ==> s[i].timestamp <= s[j].timestamp
  }

  /** Every delivered child with its key stamped on as its id, in delivery order. */
  function StampMessages(snapshot: seq<Child<ChatMessage>>): (r: seq<ChatMessage>)
    ensures |r| == |snapshot|
    ensures forall i :: 0 <= i < |snapshot| ==> r[i] == StampMessage(snapshot[i])
  {
    seq(|snapshot|, i requires 0 <= i < |snapshot| => StampMessage(snapshot[i]))
  }

  /** Exchanges the elements at positions j - 1 and j. */
  method SwapDown(a: array<ChatMessage>, j: int)
    requires 0 < j < a.Length
    modifies a
    ensures a[..] == old(a[..])[j - 1 := old(a[j])][j := old(a[j - 1])]
    ensures multiset(a[..]) == old(multiset(a[..]))
  {
    a[j - 1], a[j] := a[j], a[j - 1];
  }

  /** Moves a[i] down into the sorted prefix a[..i], leaving a[i + 1..] alone. */
  method InsertDown(a: array<ChatMessage>, i: int)
    requires 0 <= i < a.Length
    requires SortedByTimestamp(a[..i])
    modifies a
    ensures SortedByTimestamp(a[..i + 1])
    ensures multiset(a[..]) == old(multiset(a[..]))
  {
    var j := i;
    while j > 0 && a[j - 1].timestamp > a[j].timestamp
      invariant 0 <= j <= i
      invariant multiset(a[..]) == old(multiset(a[..]))
      invariant forall p, q :: 0 <= p < q <= i && p != j && q != j ==> a[p].timestamp <= a[q].timestamp
      invariant forall q :: j < q <= i ==> a[j].timestamp < a[q].timestamp
    {
      SwapDown(a, j);
      j := j - 1;
    }
  }

  /** `messages.sort((a, b) => a.timestamp - b.timestamp)`, as an insertion sort in place. */
  method SortByTimestamp(a: array<ChatMessage>)
    modifies a
    ensures SortedByTimestamp(a[..])
    ensures multiset(a[..]) == old(multiset(a[..]))
  {
    var i := 0;
    while i < a.Length
      invariant 0 <= i <= a.Length
      invariant SortedByTimestamp(a[..i])
      invariant multiset(a[..]) == old(multiset(a[..]))
    {
      InsertDown(a, i);
      i := i + 1;
    }
    assert a[..a.Length] == a[..];
  }

  /**
   * The message-snapshot handler's computation: stamp every child with its
   * key, collect them in delivery order, then sort by timestamp.
   */
  method ArrangeMessages(snapshot: seq<Child<ChatMessage>>) returns (view: seq<ChatMessage>)
    ensures SortedByTimestamp(view)
    ensures multiset(view) == multiset(StampMessages(snapshot))
    ensures |view| == |snapshot|
    ensures forall m :: m in view ==> exists k :: 0 <= k < |snapshot| && m == StampMessage(snapshot[k])
  {
    var messages: seq<ChatMessage> := [];
    for k := 0 to |snapshot|
      invariant messages == StampMessages(snapshot[..k])
    {
      messages := messages + [StampMessage(snapshot[k])];
    }
    assert snapshot[..|snapshot|] == snapshot;
    var a := new ChatMessage[|messages|](t requires 0 <= t < |messages| => messages[t]);
    assert a[..] == messages;
    SortByTimestamp(a);
    view := a[..];
    assert |view| == |multiset(view)| == |multiset(messages)| == |snapshot|;
    forall m | m in view ensures exists k :: 0 <= k < |snapshot| && m == StampMessage(snapshot[k]) {
      assert m in multiset(messages);
    }
  }

  /** The room-snapshot handler's computation: every child with its key as id, in snapshot order. */
  method CollectRooms(snapshot: seq<Child<ChatRoom>>) returns (rooms: seq<ChatRoom>)
    ensures |rooms| == |snapshot|
    ensures forall i :: 0 <= i < |rooms| ==> rooms[i] == StampRoom(snapshot[i])
  {
    rooms := [];
    for k := 0 to |snapshot|
      invariant |rooms| == k
      invariant forall i :: 0 <= i < k ==> rooms[i] == StampRoom(snapshot[i])
    {
      rooms := rooms + [StampRoom(snapshot[k])];
    }
  }

  predicate DistinctTimestamps(s: seq<ChatMessage>) {
    forall i, j :: 0 <= i < j < |s| ==> s[i].timestamp != s[j].timestamp
  }

  /** Two sorted permutations of the same messages with distinct timestamps start alike. */
  lemma HeadsAgree(x: seq<ChatMessage>, y: seq<ChatMessage>)
    requires SortedByTimestamp(x) && SortedByTimestamp(y)
    requires multiset(x) == multiset(y)
    requires DistinctTimestamps(x)
    requires x != []
    ensures y != [] && y[0] == x[0]
  {
    assert x[0] in multiset(y);
    var k :| 0 <= k < |y| && y[k] == x[0];
    assert y[0] in multiset(x);
    var m :| 0 <= m < |x| && x[m] == y[0];
    assert x[m].timestamp <= x[0].timestamp;
  }

  /** Removing the same first element from two permutations leaves two permutations. */
  lemma TailsPermuted<T>(x: seq<T>, y: seq<T>)
    requires x != [] && y != [] && x[0] == y[0]
    requires multiset(x) == multiset(y)
    ensures multiset(x[1..]) == multiset(y[1..])
  {
    assert x == [x[0]] + x[1..];
    assert y == [y[0]] + y[1..];
    calc {
      multiset(x[1..]);
      multiset(x) - multiset{x[0]};
      multiset(y) - multiset{y[0]};
      multiset(y[1..]);
    }
  }

  /**
   * The view is determined by the snapshot when no two messages share a
   * timestamp: two sorted permutations of the same messages are equal.
   */
  lemma {:induction false} SortedPermutationsAgree(x: seq<ChatMessage>, y: seq<ChatMessage>)
    requires SortedByTimestamp(x) && SortedByTimestamp(y)
    requires multiset(x) == multiset(y)
    requires DistinctTimestamps(x)
    ensures x == y
  {
    if x == [] {
      assert |multiset(y)| == 0;
    } else {
      HeadsAgree(x, y);
      TailsPermuted(x, y);
      SortedPermutationsAgree(x[1..], y[1..]);
      assert x == [x[0]] + x[1..] && y == [y[0]] + y[1..];
    }
  }

  /** The snapshot [300, 100, 200] (by timestamp) is shown as [100, 200, 300]. */
  /** Stamping a three-child snapshot, child by child. */
  lemma StampThree(snapshot: seq<Child<ChatMessage>>)
    requires |snapshot| == 3
    ensures StampMessages(snapshot) == [StampMessage(snapshot[0]), StampMessage(snapshot[1]), StampMessage(snapshot[2])]
  {
  }

  /** Three messages with strictly increasing timestamps are sorted and distinct. */
  lemma AscendingThree(x: ChatMessage, y: ChatMessage, z: ChatMessage)
    requires x.timestamp < y.timestamp < z.timestamp
    ensures SortedByTimestamp([x, y, z]) && DistinctTimestamps([x, y, z])
  {
  }

  /** Rotating three elements keeps their multiset. */
  lemma RotationPermutes<T>(x: T, y: T, z: T)
    ensures multiset([y, z, x]) == multiset([x, y, z])
  {
  }

  lemma ThreeMessageExample(snapshot: seq<Child<ChatMessage>>, view: seq<ChatMessage>)
    requires |snapshot| == 3
    requires snapshot[0].value.timestamp == 300
    requires snapshot[1].value.timestamp == 100
    requires snapshot[2].value.timestamp == 200
    requires SortedByTimestamp(view) && multiset(view) == multiset(StampMessages(snapshot))
    ensures view == [StampMessage(snapshot[1]), StampMessage(snapshot[2]), StampMessage(snapshot[0])]
  {
    var m0, m1, m2 := StampMessage(snapshot[0]), StampMessage(snapshot[1]), StampMessage(snapshot[2]);
    StampThree(snapshot);
    RotationPermutes(m0, m1, m2);
    AscendingThree(m1, m2, m0);
    SortedPermutationsAgree([m1, m2, m0], view);
  }

  class ChatService {
    const db: Database
    var currentUser: Option<User>
    var currentRoomId: string
    /** The current value of the message subject: the view the UI shows. */
    var messages: seq<ChatMessage>
    /** Every value the message subject has emitted, oldest first. */
    ghost var published: seq<seq<ChatMessage>>
    /**
     * For each published value, how many store calls had been traced when it
     * was emitted; with the trace this orders emissions among store calls.
     */
    ghost var publishedAt: seq<nat>

    /**
     * The store is consistent, the view is the last value published and is
     * sorted by timestamp, and the only listeners attached are the room
     * list's and the current room's: at most one message channel is open at
     * a time.
     */
    ghost predicate Valid()
      reads this, db
    {
      && db.Valid()
      && published != [] && messages == published[|published| - 1]
      && |publishedAt| == |published| && (forall i :: 0 <= i < |publishedAt| ==> publishedAt[i] <= |db.calls|)
      && SortedByTimestamp(messages)
      && forall p | p in db.listeners :: p == RoomsPath || p == MessagesPath(currentRoomId)
    }

    /** A message listener fires for deliveries on `path`. */
    predicate ListeningTo(path: string)
      reads this, db
    {
      path != RoomsPath && path in db.listeners
    }

    constructor (db: Database)
      requires db.Valid() && db.listeners == {}
      ensures Valid() && this.db == db
      ensures currentUser == None && currentRoomId == "general"
      ensures messages == [] && published == [[]] && publishedAt == [|db.calls|]
    {
      this.db := db;
      currentUser := None;
      currentRoomId := "general";
      messages := [];
      published := [[]];
      publishedAt := [|db.calls|];
    }

    /** The auth subscription: every value of the user stream overwrites the current user. */
    method OnUserChanged(user: Option<User>)
      requires Valid()
      modifies this`currentUser
      ensures Valid() && currentUser == user
    {
      currentUser := user;
    }

    /**
     * `sendMessage(text)`: rejects when nobody is signed in, touching nothing;
     * otherwise pushes one message record under the current room's path and
     * settles with the outcome of the write. `now`, `createdAt` and `key` are
     * the clock readings and the key the store generates.
     */
    method SendMessage(text: string, now: int, createdAt: string, key: string, writeOk: bool)
      returns (r: Result<()>)
      requires Valid()
      requires key != "" && !HasKey(db.At(MessagesPath(currentRoomId)), key)
      modifies db`children, db`calls
      ensures Valid()
      ensures db.listeners == old(db.listeners)
      ensures currentUser.None? ==>
        r == Err(NotAuthenticated) && db.calls == old(db.calls) && db.children == old(db.children)
      ensures currentUser.Some? ==>
        var rec := NewMessage(text, currentUser.value, now, createdAt);
        var path := MessagesPath(currentRoomId);
        && db.calls == old(db.calls) + [PushCall(path, MessageRecord(rec))]
        && r == (if writeOk then Ok(()) else Err(WriteFailed))
        && db.children == (if writeOk then old(db.children)[path := old(db.At(path)) + [Child(key, MessageRecord(rec))]]
                           else old(db.children))
    {
      if currentUser.None? {
        return Err(NotAuthenticated);
      }
      var message := NewMessage(text, currentUser.value, now, createdAt);
      var pushed := db.Push(MessagesPath(currentRoomId), key, MessageRecord(message), writeOk);
      r := if pushed.Ok? then Ok(()) else Err(pushed.failure);
    }

    /** `listenToMessages()`: attaches the message listener to the current room's path. */
    method ListenToMessages()
      requires Valid()
      modifies db`listeners, db`calls
      ensures Valid()
      ensures db.listeners == old(db.listeners) + {MessagesPath(currentRoomId)}
      ensures db.calls == old(db.calls) + [OnValueCall(MessagesPath(currentRoomId))]
    {
      db.OnValue(MessagesPath(currentRoomId));
    }

    /**
     * The message listener: a delivery on a path it listens to replaces the
     * view with the snapshot's children, stamped with their keys and sorted
     * by timestamp, and publishes it; any other delivery changes nothing.
     */
    method OnMessagesSnapshot(path: string, snapshot: seq<Child<ChatMessage>>)
      requires Valid()
      modifies this`messages, this`published, this`publishedAt
      ensures Valid()
      ensures ListeningTo(path) ==>
        && path == MessagesPath(currentRoomId)
        && SortedByTimestamp(messages)
        && multiset(messages) == multiset(StampMessages(snapshot))
        && published == old(published) + [messages] && publishedAt == old(publishedAt) + [|db.calls|]
      ensures !ListeningTo(path) ==>
        messages == old(messages) && published == old(published) && publishedAt == old(publishedAt)
    {
      if ListeningTo(path) {
        var view := ArrangeMessages(snapshot);
        messages := view;
        published := published + [view];
        publishedAt := publishedAt + [|db.calls|];
      }
    }

    /** `stopListening()`: detaches the listener on the current room's path. */
    method StopListening()
      requires Valid()
      modifies db`listeners, db`calls
      ensures Valid()
      ensures db.listeners == old(db.listeners) - {MessagesPath(currentRoomId)}
      ensures db.calls == old(db.calls) + [OffCall(MessagesPath(currentRoomId))]
      ensures !ListeningTo(MessagesPath(currentRoomId))
    {
      db.Off(MessagesPath(currentRoomId));
    }

    /**
     * `switchRoom(roomId)`: detach the old room's listener, change the room,
     * publish an empty view, attach the new room's listener, in that order.
     */
    method SwitchRoom(roomId: string)
      requires Valid()
      modifies this`currentRoomId, this`messages, this`published, this`publishedAt, db`listeners, db`calls
      ensures Valid()
      ensures currentRoomId == roomId && GetCurrentRoomId() == roomId
      ensures messages == [] && published == old(published) + [[]]
      ensures db.calls == old(db.calls) + [OffCall(MessagesPath(old(currentRoomId))), OnValueCall(MessagesPath(roomId))]
      // The empty view is emitted after the `off` and before the `onValue`.
      ensures publishedAt == old(publishedAt) + [|old(db.calls)| + 1]
      ensures db.listeners == old(db.listeners) - {MessagesPath(old(currentRoomId))} + {MessagesPath(roomId)}
      ensures db.children == old(db.children)
      ensures ListeningTo(MessagesPath(roomId))
      ensures old(currentRoomId) != roomId ==> !ListeningTo(MessagesPath(old(currentRoomId)))
    {
      StopListening();
      currentRoomId := roomId;
      messages := [];
      published := published + [[]];
      publishedAt := publishedAt + [|db.calls|];
      ListenToMessages();
      MessagesPathInjective(old(currentRoomId), roomId);
    }

    /** `getCurrentRoomId()`. */
    function GetCurrentRoomId(): (id: string)
      reads this
      ensures id == currentRoomId
    {
      currentRoomId
    }

    /**
     * `createRoom(name, description)`: rejects when nobody is signed in,
     * touching nothing; otherwise pushes one room record under `rooms` and
     * settles with the new record's key.
     */
    method CreateRoom(name: string, description: Option<string>, createdAt: string, key: string, writeOk: bool)
      returns (r: Result<string>)
      requires Valid()
      requires key != "" && !HasKey(db.At(RoomsPath), key)
      modifies db`children, db`calls
      ensures Valid()
      ensures db.listeners == old(db.listeners)
      ensures currentUser.None? ==>
        r == Err(NotAuthenticated) && db.calls == old(db.calls) && db.children == old(db.children)
      ensures currentUser.Some? ==>
        var rec := NewRoom(name, description, currentUser.value, createdAt);
        && db.calls == old(db.calls) + [PushCall(RoomsPath, RoomRecord(rec))]
        && r == (if writeOk then Ok(key) else Err(WriteFailed))
        && db.children == (if writeOk then old(db.children)[RoomsPath := old(db.At(RoomsPath)) + [Child(key, RoomRecord(rec))]]
                           else old(db.children))
      ensures r.Ok? ==> r.value != "" && r.value == db.At(RoomsPath)[|db.At(RoomsPath)| - 1].key
    {
      if currentUser.None? {
        return Err(NotAuthenticated);
      }
      var room := NewRoom(name, description, currentUser.value, createdAt);
      r := db.Push(RoomsPath, key, RoomRecord(room), writeOk);
    }

    /** `getRooms()` on subscription: attaches the listener on `rooms`. */
    method GetRooms()
      requires Valid()
      modifies db`listeners, db`calls
      ensures Valid()
      ensures db.listeners == old(db.listeners) + {RoomsPath}
      ensures db.calls == old(db.calls) + [OnValueCall(RoomsPath)]
    {
      db.OnValue(RoomsPath);
    }

    /**
     * The room listener: a delivery on `rooms` while it is attached yields the
     * room list, one room per child in snapshot order with its key as id;
     * any other delivery yields nothing.
     */
    method OnRoomsSnapshot(path: string, snapshot: seq<Child<ChatRoom>>) returns (rooms: Option<seq<ChatRoom>>)
      ensures rooms.Some? <==> path == RoomsPath && RoomsPath in db.listeners
      ensures rooms.Some? ==>
        && |rooms.value| == |snapshot|
        && forall i :: 0 <= i < |snapshot| ==> rooms.value[i] == StampRoom(snapshot[i])
    {
      if path == RoomsPath && RoomsPath in db.listeners {
        var list := CollectRooms(snapshot);
        rooms := Some(list);
      } else {
        rooms := None;
      }
    }
  }
}
