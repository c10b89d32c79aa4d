/**
 * An abstract realtime store standing in for the backend database: every
 * path holds an append-only list of keyed children, a set of paths has a
 * live listener attached, and a ghost trace records every call made on the
 * store, in order, so that callers can state what they did and did not do.
 */
module Store {
  import opened ChatModels

  /** What is written under a path. */
  datatype Record = MessageRecord(message: ChatMessage) | RoomRecord(room: ChatRoom)

  /** One call on the store, as a spy sees it. */
  datatype Call = PushCall(path: string, record: Record) | OnValueCall(path: string) | OffCall(path: string)

  predicate HasKey<T>(cs: seq<Child<T>>, key: string) {
    exists i :: 0 <= i < |cs| && cs[i].key == key
  }

  /** Every child has a non-empty key and no key occurs twice. */
  predicate WellKeyed<T>(cs: seq<Child<T>>) {
    && (forall i :: 0 <= i < |cs| ==> cs[i].key != "")
    && (forall i, j :: 0 <= i < j < |cs| ==> cs[i].key != cs[j].key)
  }

  class Database {
    var children: map<string, seq<Child<Record>>>
    var listeners: set<string>
    ghost var calls: seq<Call>

    ghost predicate Valid()
      reads this
    {
      forall p | p in children :: WellKeyed(children[p])
    }

    /** The children under a path; a path never written to is empty. */
    function At(path: string): seq<Child<Record>>
      reads this
    {
      if path in children then children[path] else []
    }

    constructor ()
      ensures Valid()
      ensures children == map[] && listeners == {} && calls == []
    {
      children, listeners, calls := map[], {}, [];
    }

    /**
     * `push(ref(path), record)`: appends one child with a freshly generated
     * key. `writeOk` is the outcome of the write; a failed write stores nothing.
     */
    method Push(path: string, key: string, record: Record, writeOk: bool) returns (r: Result<string>)
      requires Valid()
      requires key != "" && !HasKey(At(path), key)
      modifies this`children, this`calls
      ensures Valid()
      ensures calls == old(calls) + [PushCall(path, record)]
      ensures r == if writeOk then Ok(key) else Err(WriteFailed)
      ensures children == if writeOk then old(children)[path := old(At(path)) + [Child(key, record)]]
                          else old(children)
    {
      calls := calls + [PushCall(path, record)];
      if writeOk {
        children := children[path := At(path) + [Child(key, record)]];
        r := Ok(key);
      } else {
        r := Err(WriteFailed);
      }
    }

    /** `onValue(ref(path), ...)`: attaches a live listener to a path. */
    method OnValue(path: string)
      modifies this`listeners, this`calls
      ensures listeners == old(listeners) + {path}
      ensures calls == old(calls) + [OnValueCall(path)]
    {
      listeners := listeners + {path};
      calls := calls + [OnValueCall(path)];
    }

    /** `off(ref(path))`: removes the listener on a path; removing an absent one is harmless. */
    method Off(path: string)
      modifies this`listeners, this`calls
      ensures listeners == old(listeners) - {path}
      ensures calls == old(calls) + [OffCall(path)]
    {
      listeners := listeners - {path};
      calls := calls + [OffCall(path)];
    }
  }
}
