# A verified model of a WebSocket chat server

The server keeps three process-wide structures:

- `USERS`, the set of live connections.
- `connected`, an insertion-ordered dictionary from connection to display name.
- `chat`, an append-only log of `(timestamp, from, to, msg)` entries.

Clients connect and claim a name. Claiming a name evicts its previous holder. Clients send directed messages, which are always logged. If the recipient name is bound, each message is sent to every connection bound to either name; if it is not, the message is sent to nobody, not even the sender. A bound connection may already be closed, because closing does not unbind it. Clients can also ask for the history between two names to be replayed. After every change to a binding, the list of bound names is broadcast.

This project models that registry, router and history engine.

- `Bindings` keeps `connected` as a sequence of `(connection, name)` bindings. The order of `connected.values()` is therefore part of the model.
  - `Put` is `connected[ws] = name`: an existing key keeps its place, a new key goes last.
  - `Delete` is `del connected[ws]`.
  - `Rebind` is the effect of `add_user`: evict the first holder of the name in iteration order, then assign.
- `Events` holds the events (`State`, `UserCount`, `Users`, `Chat`) as a datatype rather than JSON text. A `Send` is one `asyncio.wait` (or, for the welcome event, the bare `websocket.send` to the new connection): a recipient set and an event.
  - `Deliveries(sends, c)` is what is sent to connection `c`, in order.
  - `NoEmptyBatch` says no `asyncio.wait` is given an empty list, which asyncio rejects. The broadcasts guard against it with `if USERS:`, and `message_to` never reaches it. `replay_chat` has no guard (see `EmptyWait` below).
- `History` holds log entries, the replay filter (`Between`, `Conversation`) and the `show_chat` line format.
- `Routing` holds the sends of `message_to` (`FanOut`, `MessageSends`) and of `replay_chat` (`ReplayBatches`).
- `Session` decodes an inbound frame into an action, with the same key lookups as the dispatch in `producer`.
- `Engine` is the reference definition of the server as a value.
  - A `World` holds `USERS`, `connected` and `chat`.
  - `Apply` is one branch of the dispatch, and `Step` is one frame: decode, then dispatch.
  - `Run` is the `async for`: frames are handled in order until one raises.
  - `Lifecycle` is a whole `producer`: open, run, then the `finally`.
  - Its lemmas state what one frame and a whole session promise.
- `ChatServer.Server` holds `users`, `connected` and `chat` as fields. Its methods mirror the handlers:
  - search, rebind and send loops with their invariants;
  - `modifies` clauses, and postconditions that tie the new state to the functions above.
  - Every handler runs atomically and returns the batches it sends.
  - `Perform` is proved equal to `Apply`, `Handle` to `Step`, the loop `Serve` to `Run`, and `Producer` to `Lifecycle`.
  - `Open` is the start of `producer` (register, then the welcome state event to the new connection only).
  - `Unregister` is the `finally`.
  - Interleaved sessions are modelled by calling the handlers for several connections in any order. `AliceAndBob` calls `Open`, `AddUser`, `MessageTo`, `Unregister` and `ReplayChat` this way. `AliceAndBobConnect` and `AliceAndBobChat` check what `Apply` dispatches for the same steps.

Exceptions that end a session are modelled as `Fault`s:

- `Undecodable`: the frame is not JSON, or not a JSON object.
- `MissingKey`: a KeyError on a payload field.
- `NotBound`: `remove_user` on an unbound connection.
- `NotRegistered`: `USERS.remove` of an unknown connection.
- `EmptyWait`: `replay_chat` has a matching entry but no connection is bound to the requester, so `asyncio.wait` gets an empty list.

In each case the handler changes nothing and sends nothing.

Where the code differs from what one might expect, the model follows the code:

- Malformed input is fatal to the session, not ignored.
- `unregister` leaves the connection's name binding in place. The name is still listed, and messages to it are still sent to the closed connection; each such send fails inside its own task.
- `show_users` goes to every live connection, named or not.
- A connection that re-claims the name it already holds is deleted and re-inserted, so it moves to the end of the user list.
- `message_to` issues one batch per connection bound to the recipient name. With distinct names that is one batch.
- `users_event` counts connections. It is not the name list.

## Model

| member | source | states |
|---|---|---|
| Bindings.Put | chat_serv_br.py:101 | assigning `connected[ws]` adds `ws` to the keys and binds it to the name |
| Bindings.Delete | chat_serv_br.py:99 | deleting a key removes exactly that key's bindings and keeps every other one |
| Bindings.PutMembers | chat_serv_br.py:101 | after the assignment the bindings are the old ones of other keys plus `ws -> name` |
| Bindings.PutNew | chat_serv_br.py:101 | assigning a new key appends it at the end of the insertion order |
| Bindings.PutInPlace | chat_serv_br.py:101 | assigning an existing key rewrites its entry at its first position |
| Bindings.PutKeysDistinct | chat_serv_br.py:101 | assignment keeps the dictionary's keys distinct |
| Bindings.PutNamesDistinct | chat_serv_br.py:101 | binding a name that no other connection holds keeps names distinct |
| Bindings.DeleteAbsent | chat_serv_br.py:99 | a property of the model's `Delete`, not of `del`: deleting an absent key leaves the table unchanged (the code only deletes present keys here; `del` of an absent key raises, which the model gives as `NotBound`) |
| Bindings.DeleteCommutes | chat_serv_br.py:99 | deletions of two keys commute |
| Bindings.DeletePut | chat_serv_br.py:99-101 | after an assignment, deleting the assigned key gives back the other entries in their original order |
| Bindings.DeleteDistinct | chat_serv_br.py:99 | deletion keeps keys and names distinct |
| Bindings.DeleteUnbinds | chat_serv_br.py:106 | `del connected[ws]` unbinds `ws` from every name and keeps all other holders |
| Bindings.NameListedOnce | chat_serv_br.py:52 | with distinct names, `connected.values()` lists a bound name exactly once and an unbound one never |
| Bindings.FirstHolder | chat_serv_br.py:91-96 | the search loop finds a holder exactly when the name is bound, and the holder found is bound to it |
| Bindings.FirstHolderIsFirst | chat_serv_br.py:93-96 | the holder found is the first entry with that name in iteration order |
| Bindings.RebindUnique | chat_serv_br.py:90-101 | after `add_user`, `ws` is the one connection bound to the name, and keys and names stay distinct |
| Bindings.RebindKeys | chat_serv_br.py:98-101 | `add_user` unbinds exactly the evicted holder and binds `ws` |
| Bindings.RebindKeepsOthers | chat_serv_br.py:93-101 | every binding of a connection other than `ws` and the evicted holder is kept, in its relative order; `ws`'s old name is replaced |
| Bindings.RebindMovesToEnd | chat_serv_br.py:98-101 | a connection that was unbound, or that held the name itself, ends up last in `connected` |
| Events.DeliveriesAppend | chat_serv_br.py:53 | what a connection receives from consecutive batches is what it receives from each, in order |
| Events.Broadcast | chat_serv_br.py:25-27 | a guarded broadcast sends nothing when no connection is live; otherwise every live connection gets the event exactly once and nobody else gets it |
| History.Conversation | chat_serv_br.py:57-58 | the replay filter keeps exactly the log entries from `a` to `b` or from `b` to `a` |
| History.ConversationSingleton | chat_serv_br.py:58 | one entry is kept exactly when it is between the two names |
| History.ConversationAppend | chat_serv_br.py:56-60 | the filter is order-preserving: on a grown log it gives the earlier answer followed by the new matches |
| History.ConversationSymmetric | chat_serv_br.py:58 | the pair of names is unordered |
| History.ConversationExample | chat_serv_br.py:56-58 | of entries a-b, c-d, b-a, the replay between a and b keeps the first and the last |
| History.EntryLineFields | chat_serv_br.py:80 | a `show_chat` line splits back on ';' into timestamp, sender, recipient and message when none contains ';' |
| Text.SplitJoin | chat_serv_br.py:80 | joining with a separator that no part contains is undone by splitting |
| Routing.FanOutShape | chat_serv_br.py:69-73 | every batch of the send loop is the same; there is one per holder of `user_to`, none when it is unbound, and at most one when names are distinct |
| Routing.MessageOffline | chat_serv_br.py:69-73 | a message to an unbound name is sent to nobody, not even echoed to its sender |
| Routing.MessageOnline | chat_serv_br.py:69-73 | with distinct names and `user_to` bound, there is exactly one batch carrying the chat event to the holders of `user_to` and `user_in`, and they are exactly the connections that receive it |
| Routing.MessageNoEmptyBatch | chat_serv_br.py:73 | `message_to` never waits on an empty list of sends |
| Routing.ReplayShape | chat_serv_br.py:56-60 | replay fails (empty wait) exactly when an entry matches and nobody is bound to the requester; otherwise it sends one batch per matching entry, in log order, carrying that entry's from/to/msg to the requester's connections |
| Routing.ReplayNoEmptyBatch | chat_serv_br.py:60 | a replay that succeeds never issued an empty batch |
| Session.DecodeEncode | chat_serv_br.py:118-130 | every envelope decodes to exactly the action it encodes, with the payload's `name` as given, whatever other fields it carries |
| Session.DecodeFaults | chat_serv_br.py:116-120 | decoding fails only on an undecodable frame or a missing key; an empty frame is skipped |
| Engine.StepInvariant | chat_serv_br.py:116-133 | one frame keeps `connected` a dictionary with unshared names, keeps `USERS`, adds to the log exactly the message it carries, and changes nothing if it raises |
| Engine.StepFaults | chat_serv_br.py:116-133 | a frame raises only its decoding fault, the KeyError of `disconnect` from an unbound connection, or the empty wait of a `replay` whose requester has no connection |
| Engine.RunStops | chat_serv_br.py:116-136 | the loop handles a prefix of the frames, each of which decodes, and never passes an undecodable frame; it ends early exactly when it has a fault, and then the frame at the stopping point, handled in the final world, raises exactly that fault (a decoding fault, `remove_user`'s KeyError, or replay's empty wait) |
| Engine.RunInvariant | chat_serv_br.py:116-133 | across the loop the dictionary stays well formed, `USERS` is unchanged, and the log gains the messages of the handled frames, in order |
| Engine.LifecycleState | chat_serv_br.py:110-136 | after a session the connection is out of `USERS`, the dictionary is well formed, the log gained exactly the handled messages, and the session ended early exactly when it has a fault, which is the one the frame at the stopping point raises in the final world (with the connection still registered) |
| Engine.LifecycleSends | chat_serv_br.py:110-136 | a session's sends begin with the user list and the welcome state event and, by the `finally`, end with the user list shown after the connection left |
| Engine.LifecycleWelcome | chat_serv_br.py:110-115 | the first two things sent to a new connection are the user list and then the state event |
| ChatServer.Server.constructor | chat_serv_br.py:11-13 | the server starts with no connections, no bindings and an empty log |
| ChatServer.Server.NotifyState | chat_serv_br.py:24-27 | `notify_state` gives every live connection the state event once and never waits on an empty list |
| ChatServer.Server.NotifyUsers | chat_serv_br.py:30-33 | `notify_users` gives every live connection the connection count once and never waits on an empty list |
| ChatServer.Server.ShowUsers | chat_serv_br.py:49-53 | `show_users` sends nothing when no connection is live; otherwise every live connection, named or not, gets the bound names comma-joined in `connected` order |
| ChatServer.Server.Register | chat_serv_br.py:36-39 | `register` adds the connection to `USERS` before the user list is shown, and changes nothing else |
| ChatServer.Server.Unregister | chat_serv_br.py:42-45 | `unregister` removes the connection from `USERS` only and leaves its binding; an unknown connection is a KeyError with no effect |
| ChatServer.Server.AddUser | chat_serv_br.py:90-102 | the search loop and the rebinding leave `connected` as `Rebind` says, with `ws` the only holder of the name and `USERS` and the log unchanged |
| ChatServer.Server.RemoveUser | chat_serv_br.py:105-107 | `remove_user` deletes `ws`'s binding and shows the user list; an unbound `ws` is a KeyError with no effect |
| ChatServer.Server.MessageTo | chat_serv_br.py:63-73 | `message_to` appends exactly one entry at the end of the log, whoever is online; its send loop issues exactly `MessageSends`; `USERS` and `connected` are unchanged |
| ChatServer.Server.ReplayChat | chat_serv_br.py:56-60 | the replay loop issues exactly `ReplayBatches`, failing at the first matching entry when nobody is bound to the requester |
| ChatServer.Server.ShowChat | chat_serv_br.py:76-87 | `show_chat` returns one `tm;from;to;msg` line per log entry, unfiltered, in log order |
| ChatServer.Server.Perform | chat_serv_br.py:120-133 | each branch of the dispatch calls exactly its handler, and the new state and result are those `Apply` gives; an unknown action changes nothing and sends nothing |
| ChatServer.Server.Handle | chat_serv_br.py:116-133 | one pass of the `async for` leaves exactly the state and result `Step` gives: an empty frame is skipped, a decoding fault raises before any effect, otherwise the decoded action is performed |
| ChatServer.Server.Open | chat_serv_br.py:110-115 | a new session registers the connection, shows the user list, then sends the welcome state event to that connection alone |
| ChatServer.Server.Serve | chat_serv_br.py:116-133 | the loop over the frames ends in exactly the state, sends, handled count and fault of `Run`, with `USERS` unchanged |
| ChatServer.Server.Producer | chat_serv_br.py:110-136 | a session ends in exactly the state, sends, handled count and fault of `Lifecycle`: the connection leaves `USERS`, the log gains exactly the handled messages, the loop stops only at a raising frame, and the sends start with the opening batches and end with the closing user list |
| ChatServer.AliceAndBobTable | chat_serv_br.py:90-101 | alice then bob connecting binds them in that order, each the one holder of their name |
| ChatServer.AliceAndBobSends | chat_serv_br.py:56-73 | alice's message to bob goes to both of them in one batch; replaying alice's conversation with bob gives that message to alice alone |
| ChatServer.AliceAndBobConnect | chat_serv_br.py:120-121 | dispatching alice's and bob's `connect` frames binds them in that order |
| ChatServer.AliceAndBobChat | chat_serv_br.py:126-130 | dispatching alice's message logs it and sends it to both in one batch; dispatching her replay after bob closed sends it to her alone |
| ChatServer.AliceAndBob | chat_serv_br.py:110-136 | in the two-session scenario run through the handlers, alice's message reaches alice and bob; after bob's socket closes, alice's replay returns it to alice alone |

## Left out

- `websockets.serve` and the event loop (chat_serv_br.py:138-139), and the transport's `async for` receive. These are I/O. Inbound frames are given as values, already run through `json.loads`.
- JSON encoding and decoding. Events are a datatype. An envelope is a map from field names to strings, so JSON values that are not strings are not modelled. Two behaviours are lost this way:
  - A `connect` whose `name` is not a string binds it. Afterwards `', '.join` (chat_serv_br.py:52) raises in every `show_users`, including the one in `register` (chat_serv_br.py:112), which runs outside the `try`.
  - An `action` that is not a string matches no branch and is ignored (chat_serv_br.py:132-133). The model ignores an unknown string `action` in the same way (`Other`).
- `time.time()`. The timestamp string comes with each frame.
- The `print` calls (chat_serv_br.py:82, 85, 133). `ShowChat` keeps only the return value.
- asyncio concurrency:
  - other tasks changing `connected` while a send is awaited, including the RuntimeError from iterating a dictionary that changed size;
  - the order in which deliveries happen;
  - per-recipient send failures. A closed peer's failed send stays inside its task and does not affect the handler.
  - Each handler is atomic, and each `asyncio.wait` is one batch with a recipient set.
- The model assumes `asyncio.wait` accepts coroutines, as it did before Python 3.11.
- `STATE` is never changed by the code, so it is the constant `StateValue`.
- ChatServer.Server.Producer: runs one session on its own. Interleaving of sessions is left to callers of `Open`, `Handle` and `Unregister`.
