# Chat session model

A Dafny model of the client-side chat logic of a single-page chat application
that keeps all of its data in a hosted realtime database. Two classes carry
the state:

- `Chat.ChatService` holds the signed-in user, the current room (initially
  `general`) and the published message view (initially empty). It appends
  messages under `rooms/{room}/messages` and rooms under `rooms`. It turns each
  delivered snapshot into a view sorted by timestamp. It switches rooms by
  detaching the old listener, changing room, publishing an empty view and
  attaching the new listener.
- `ChatUi.ChatComponent` holds the text box, the busy flag and the room shown.
  It refuses to send blank text or to send while signed out. It settles a send
  (success clears the text box; both outcomes clear the busy flag), sends on
  Enter without Shift, and switches into a room it has just created.

The database is the class `Store.Database`:

- every path maps to an append-only list of keyed children;
- a set of paths has a live listener attached;
- a ghost trace records every `push`, `onValue` and `off`, in order.

With the trace, as with a spy in a test, the contracts can say "no write
happened" or "the old path was detached before the new one was attached".

Modules, by file:

- `text.dfy` (`Text`): `trim` and `split('@')[0]`.
- `models.dfy` (`ChatModels`): users, messages, rooms, snapshot children, the record builders.
- `store.dfy` (`Store`): the database and its call trace.
- `chat_service.dfy` (`Chat`): the service, the snapshot handlers and the sort.
- `chat_component.dfy` (`ChatUi`): the component.
- `scenarios.dfy` (`ChatScenarios`): client sessions that check, by verification only, what callers can conclude from these contracts.

The inputs the code reads from its environment become parameters:

- clock readings (`Date.now()`, `toISOString()`);
- the key the store generates for a push;
- whether a write succeeds;
- what `prompt()` returned;
- the key event.

A promise the component waits on is split into two methods. The call that
starts it returns the outcome. A `Settle...` method then runs the `then` or the
`catch` branch with that outcome. So the interval in which `isLoading` is true
can be observed.

The service's `sendMessage` does not trim or validate its text. The blank-text
rule lives only in the component's guard, and the model follows that. The
component's `createNewRoom` switches into the new room after it is created;
the service's `createRoom` does not.

## Model

| member | source | states |
|---|---|---|
| `Text.SkipForward` | angular/src/app/components/chat/chat.component.ts:68 | the scan from the front stops at the first non-whitespace character, or at the end; everything it passed is whitespace |
| `Text.SkipBackward` | angular/src/app/components/chat/chat.component.ts:68 | the scan from the back stops just past the last non-whitespace character, or at its lower bound; everything it passed is whitespace |
| `Text.Trim` | angular/src/app/components/chat/chat.component.ts:68 | `trim` yields a slice of its input: everything dropped before and after it is whitespace, the result neither starts nor ends with whitespace, and it is empty exactly when every character is whitespace, so the guard rejects exactly the blank messages |
| `Text.BeforeFirst` | angular/src/app/services/chat.service.ts:37 | `split('@')[0]` is a prefix of the address that holds no '@' and is followed by '@' or is all of it |
| `ChatModels.KeyToId` | angular/src/app/services/chat.service.ts:57 | an empty key is falsy, so the id is absent exactly when the key is empty, and otherwise is the key |
| `ChatModels.EmailLabel` | angular/src/app/services/chat.service.ts:36 | the author e-mail is the user's e-mail when it is non-empty, otherwise `Unknown`; never empty |
| `ChatModels.DisplayLabel` | angular/src/app/services/chat.service.ts:37 | the author name is the display name when non-empty, else the non-empty part of the e-mail before the first '@', else `Anonymous`; never empty |
| `ChatModels.StampMessage` | angular/src/app/services/chat.service.ts:56-57 | a delivered message gets its key as id (absent for an empty key) and keeps every other field |
| `ChatModels.StampRoom` | angular/src/app/services/chat.service.ts:113-114 | a delivered room gets its key as id (absent for an empty key) and keeps every other field |
| `ChatModels.NewMessage` | angular/src/app/services/chat.service.ts:33-40 | the message record has no id, the text unchanged, the author's uid, the e-mail label, the display label, the clock's timestamp and the creation time |
| `ChatModels.NewRoom` | angular/src/app/services/chat.service.ts:92-98 | the room record has no id, the name, the description or `''`, the uid as creator, the creation time, no last message and one participant |
| `Store.Database.Push` | angular/src/app/services/chat.service.ts:100-103 | a successful push appends one child with the fresh key under that path and resolves with the key; a failed one stores nothing; keys stay unique and non-empty; the call is traced |
| `Store.Database.OnValue` | angular/src/app/services/chat.service.ts:53 | attaching a listener adds exactly that path and traces the call |
| `Store.Database.Off` | angular/src/app/services/chat.service.ts:70 | detaching removes exactly that path, is harmless when none is attached, and traces the call |
| `Chat.MessagesPath` | angular/src/app/services/chat.service.ts:42 | the message path of a room is never `rooms` and holds the room id, which can be read back from it |
| `Chat.MessagesPathInjective` | angular/src/app/services/chat.service.ts:69-76 | two rooms share a message path exactly when they are the same room; for room ids that are valid store keys (see Left out) this means detaching the old path never detaches another room |
| `Chat.StampMessages` | angular/src/app/services/chat.service.ts:55-59 | the collected list has one message per delivered child, in snapshot order, each stamped with its key |
| `Chat.SortByTimestamp` | angular/src/app/services/chat.service.ts:62 | the in-place sort leaves the array sorted non-decreasing by timestamp and a permutation of what it held |
| `Chat.ArrangeMessages` | angular/src/app/services/chat.service.ts:54-62 | the handler's view is sorted by timestamp, has one message per delivered child and is a permutation of the children, each stamped with its key as id (absent for an empty key) |
| `Chat.SortedPermutationsAgree` | angular/src/app/services/chat.service.ts:62 | when timestamps are distinct, any two sorted permutations of the same messages are equal, so the view depends on the snapshot alone |
| `Chat.ThreeMessageExample` | angular/src/app/services/chat.service.ts:53-63 | a snapshot with timestamps 300, 100, 200 is shown in the order 100, 200, 300 |
| `Chat.CollectRooms` | angular/src/app/services/chat.service.ts:111-116 | the room list has one room per child, in snapshot order, each with its key as id and otherwise unchanged |
| `Chat.ChatService.constructor` | angular/src/app/services/chat.service.ts:12-25 | initially nobody is signed in, the room is `general`, and the published view is the single empty list |
| `Chat.ChatService.OnUserChanged` | angular/src/app/services/chat.service.ts:22-24 | each value of the auth stream overwrites the current user |
| `Chat.ChatService.SendMessage` | angular/src/app/services/chat.service.ts:28-46 | signed out: rejected as not authenticated, and the store is untouched. Signed in: exactly one push, under the current room's message path, of a record with the text unchanged, the uid, the e-mail label and the display label; the outcome is the write's; nothing else in the modelled store changes (see Left out on nested paths) |
| `Chat.ChatService.ListenToMessages` | angular/src/app/services/chat.service.ts:49-53 | attaches the listener on the current room's message path and nothing else |
| `Chat.ChatService.OnMessagesSnapshot` | angular/src/app/services/chat.service.ts:53-64 | a delivery on a listened path replaces the view wholesale with a permutation of the stamped children sorted by timestamp, and publishes it, placed after every store call traced so far; a delivery on any other path changes nothing; the view stays sorted after every delivery |
| `Chat.ChatService.StopListening` | angular/src/app/services/chat.service.ts:68-71 | the current room's message listener is detached and nothing else |
| `Chat.ChatService.SwitchRoom` | angular/src/app/services/chat.service.ts:74-84 | detaches the old path, publishes an empty view, then attaches the new path, in that order (the emission is placed between the two traced calls); the room becomes the argument, as `getCurrentRoomId` then reports; the old room's deliveries are ignored afterwards; the store's data is untouched |
| `Chat.ChatService.GetCurrentRoomId` | angular/src/app/services/chat.service.ts:82-84 | reports the service's current room |
| `Chat.ChatService.CreateRoom` | angular/src/app/services/chat.service.ts:87-104 | signed out: rejected, and the store is untouched. Signed in: exactly one push under `rooms`, of a record with the name, the description or `''`, the uid as creator and one participant; on success it resolves with the new, non-empty key of the last room stored |
| `Chat.ChatService.GetRooms` | angular/src/app/services/chat.service.ts:107-110 | subscribing attaches the listener on `rooms` |
| `Chat.ChatService.OnRoomsSnapshot` | angular/src/app/services/chat.service.ts:110-118 | only a delivery on an attached `rooms` listener yields a list; it has the snapshot's length and order, with each key as id |
| `ChatUi.IsSendKey` | angular/src/app/components/chat/chat.component.ts:85 | a key press sends exactly when it is Enter without Shift |
| `ChatUi.UidOf` | angular/src/app/components/chat/chat.component.ts:97 | `currentUser?.uid` is present exactly when a user is, and is then that user's uid |
| `ChatUi.ChatComponent.CanSend` | angular/src/app/components/chat/chat.component.ts:68 | the send guard passes exactly when the text box holds a non-whitespace character and a user is present |
| `ChatUi.ChatComponent.constructor` | angular/src/app/components/chat/chat.component.ts:20-25 | the text box is empty, nobody is signed in, the room is `general`, and the component is not busy |
| `ChatUi.ChatComponent.NgOnInit` | angular/src/app/components/chat/chat.component.ts:51-59 | initialisation attaches exactly the `rooms` listener and then the current room's message listener, in that order, and the component shows the service's room |
| `ChatUi.ChatComponent.NgOnDestroy` | angular/src/app/components/chat/chat.component.ts:62-65 | destroying the component detaches the current room's listener, traced as one `off`, and nothing else |
| `ChatUi.ChatComponent.OnUserChanged` | angular/src/app/components/chat/chat.component.ts:37-39 | the component's own auth subscription overwrites its user |
| `ChatUi.ChatComponent.SendMessage` | angular/src/app/components/chat/chat.component.ts:67-73 | blank text or no user: no service call and no field change. Otherwise the component becomes busy and the service's send runs in full on the untrimmed text: signed out, rejected with the store untouched; signed in, one push of that record under the current room, whose outcome is the write's, and the message is stored exactly when the write succeeds |
| `ChatUi.ChatComponent.SettleSend` | angular/src/app/components/chat/chat.component.ts:74-81 | on success the text box is cleared; on failure it is kept; in both cases the component is no longer busy |
| `ChatUi.ChatComponent.OnKeyPress` | angular/src/app/components/chat/chat.component.ts:84-89 | only Enter without Shift prevents the default; a send starts exactly for Enter without Shift when the send guard passes, and it then has the same effects on the service and the store as `sendMessage`; in every other case nothing changes |
| `ChatUi.ChatComponent.SwitchRoom` | angular/src/app/components/chat/chat.component.ts:91-94 | afterwards the component's room and the service's `getCurrentRoomId()` both equal the argument, and the service has switched: the old message path detached, one empty view published, the new one attached, in that order; all other listeners kept; the store's data untouched |
| `ChatUi.ChatComponent.IsCurrentUser` | angular/src/app/components/chat/chat.component.ts:96-98 | true exactly when a user is present and its uid equals the message's author id |
| `ChatUi.ChatComponent.CreateNewRoom` | angular/src/app/components/chat/chat.component.ts:114-118 | a cancelled or blank name does nothing; otherwise the service creates a room with the trimmed name and no description: signed out, rejected with the store untouched; signed in, one push under `rooms`, and the room is stored exactly when the write succeeds |
| `ChatUi.ChatComponent.SettleCreateRoom` | angular/src/app/components/chat/chat.component.ts:119-124 | on success the component switches into the returned room, with every effect of `switchRoom`; on failure nothing changes |

## Left out

- Authentication (`auth.service.ts`), the login form, routing and the serverless notification functions are not part of this model. Only their output is kept: an optional current user, fed to the service and the component through `OnUserChanged`.
- `orderByChild('timestamp')` and `limitToLast(50)` run on the server. A delivered snapshot is an arbitrary sequence of children.
- Room ids are assumed to be valid store keys: non-empty, without `/ . # $ [ ]`. The store's `ref` throws on an invalid path, so `switchRoom` would stop half-way and `sendMessage` would throw before returning its promise; that exception is not modelled. Empty path segments, which the store collapses, are not modelled either, so `Chat.MessagesPathInjective` speaks for the store only about such ids.
- A second `onValue` on the same path adds a second callback in the store. The model keeps a set of attached paths, so listener multiplicity is not modelled; the ghost trace still records every call.
- The store is a tree, and `rooms/{room}/messages` lies inside `rooms`. The model keeps the two paths as separate lists. So it does not capture that every message write changes the value under `rooms` and fires the room-list listener again. Nor does it capture that, once a message is sent in a room that was never created (such as `general`), the room list holds a child for that room with only a `messages` field: no `name` and no `createdBy`. The source's `val() as ChatRoom` cast checks nothing; `Child<ChatRoom>` cannot represent such a child. "Nothing else changes" in the store contracts is about the modelled lists only.
- Push keys come from the store. The key is a parameter that the caller requires to be non-empty and unused under the path, as the store guarantees.
- `Store.Database.Push`: a failed write stores nothing. The store's optimistic local write, and its later rollback, are not modelled.
- `off` on a plain reference is modelled as removing the listener on that path. Which query listeners the real store removes is not modelled.
- Asynchrony, delivery timing and RxJS subscriptions are not modelled. Each promise outcome is an explicit value. The subjects' subscribers are not modelled: the component's `messages` and `rooms` fields and its subscription handles are left out. The service's published values are kept as a ghost log. Each entry also records how many store calls had been traced when it was emitted, so contracts can order emissions among store calls.
- The rejection reason is modelled as `Failure`, not the source's `'User not authenticated'` string.
- Console logging, `formatTimestamp` (locale time formatting), `scrollToBottom` (timer and DOM) and the `prompt()` dialog are left out. `preventDefault()` is modelled as a returned flag.
- `Text.IsWhitespace`: a fixed list of space, tab, line and paragraph separators, no-break space and byte-order mark. JavaScript's `trim` also strips U+1680, U+2000 to U+200A, U+202F, U+205F and U+3000, which this list lacks.
- `Chat.SortByTimestamp`: the contract says sorted and a permutation. It does not say that messages with equal timestamps keep their delivery order, which JavaScript's stable sort guarantees. `Chat.SortedPermutationsAgree` pins the view down only when timestamps are distinct.
- `Chat.ArrangeMessages`: timestamps are unbounded integers. Non-integral or NaN timestamps, and the floating-point comparator `a.timestamp - b.timestamp`, are not modelled.
- The access-control rules of the hosted database are not modelled.
- The service and the component each keep their own current user, from separate subscriptions to the same stream, as in the source. Nothing forces the two to agree.
- `ChatUi.ChatComponent.NgOnDestroy` detaches only the current room's message listener. This matches the source: the room-list observable created by `getRooms` has no teardown, so the `rooms` listener stays attached.
