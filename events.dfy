/** The events the chat server sends, and the batches it sends them in. */
module Events {
  import opened Bindings
  import opened Text

  /** `STATE['value']`: the shared application state, which nothing changes. */
  const StateValue: int := 0

  /** The JSON objects the server writes, by their `type` field. */
  datatype Event =
    | State(value: int)                                  // {'type': 'state', 'value': ...}
    | UserCount(count: nat)                              // {'type': 'users', 'count': ...}
    | Users(users: string)                               // {'type': 'users', 'users': ...}
    | Chat(name: Name, userTo: Name, msg: string)        // {'type': 'chat', ...}

  /** Sending `event` to every connection in `recipients`: one `asyncio.wait` over
      `ws.send(event)` for each of them, or, for a single recipient, the bare
      `websocket.send` of the welcome state event. */
  datatype Send = Send(recipients: set<Conn>, event: Event)

  /** The events connection `c` is sent by `sends`, in order. */
  function Deliveries(sends: seq<Send>, c: Conn): seq<Event>
  {
    if sends == [] then []
    else (if c in sends[0].recipients then [sends[0].event] else []) + Deliveries(sends[1..], c)
  }

  lemma {:induction false} DeliveriesAppend(a: seq<Send>, b: seq<Send>, c: Conn)
    ensures Deliveries(a + b, c) == Deliveries(a, c) + Deliveries(b, c)
  {
    if a == [] {
      assert a + b == b;
    } else {
      DeliveriesAppend(a[1..], b, c);
      assert (a + b)[1..] == a[1..] + b;
    }
  }

  /** No batch is an `asyncio.wait` on an empty list, which asyncio rejects. */
  predicate NoEmptyBatch(sends: seq<Send>)
  {
    forall k :: 0 <= k < |sends| ==> sends[k].recipients != {}
  }

  /** `state_event()`. */
  function StateEvent(): Event
  {
    State(StateValue)
  }

  /** `users_event()`: the number of live connections. */
  function UsersEvent(users: set<Conn>): Event
  {
    UserCount(|users|)
  }

  /** The user-list text of `show_users`: the bound names, comma-joined in `connected` order. */
  function UserListText(t: Table): string
  {
    Join(Values(t), ", ")
  }

  /** Sending `e` to every live connection, skipped when there is none
      (`if USERS: await asyncio.wait(...)`). */
  function Broadcast(users: set<Conn>, e: Event): (sends: seq<Send>)
    ensures NoEmptyBatch(sends)
    ensures sends == [] <==> users == {}
    ensures forall c :: Deliveries(sends, c) == if c in users then [e] else []
  {
    if users == {} then [] else [Send(users, e)]
  }
}
